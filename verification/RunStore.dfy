// The run statements as operations on a store, and the order in which one claim serves the queue.
module RunStore {
  import opened Prelude
  import opened RunTable
  import Json

  function ClaimableIds(runs: Runs, now: Time): set<RunId>
  {
    set id | id in runs && Claimable(runs[id], now)
  }

  // The result of the candidate query when no other statement holds row locks: the first 64
  // claimable rows in (rank, created_at) order, ties in any order.
  predicate FirstPage(runs: Runs, now: Time, cands: seq<RunId>)
  {
    && OrderedCandidates(runs, now, cands)
    && |cands| == Min(CANDIDATE_LIMIT, |ClaimableIds(runs, now)|)
    && forall x, i :: x in ClaimableIds(runs, now) && x !in cands && 0 <= i < |cands| ==>
         !Before(runs[x], runs[cands[i]], now)
  }

  predicate TenantFull(runs: Runs, tenant: Tenant, tenantMax: int)
  {
    |RunningIn(runs, Some(tenant))| >= Max(tenantMax, 1)
  }

  // The first candidate whose tenant is under its cap.
  function Choose(runs: Runs, cands: seq<RunId>, tenantMax: int): (r: Option<RunId>)
    requires forall i :: 0 <= i < |cands| ==> cands[i] in runs
    ensures r.Some? ==> r.value in cands && r.value in runs && !TenantFull(runs, runs[r.value].tenant, tenantMax)
    ensures r.None? <==> forall i :: 0 <= i < |cands| ==> TenantFull(runs, runs[cands[i]].tenant, tenantMax)
  {
    if cands == [] then None
    else if !TenantFull(runs, runs[cands[0]].tenant, tenantMax) then Some(cands[0])
    else
      var r := Choose(runs, cands[1..], tenantMax);
      assert cands == [cands[0]] + cands[1..];
      r
  }

  // What a claim without interference picks.
  function ClaimChoice(runs: Runs, cands: seq<RunId>, globalMax: int, tenantMax: int): (r: Option<RunId>)
    requires forall i :: 0 <= i < |cands| ==> cands[i] in runs
  {
    if cands == [] || |RunningIn(runs, None)| >= Max(globalMax, 1) then None
    else Choose(runs, cands, tenantMax)
  }

  // The first rows of the page in order, with the claimable rows left.
  ghost predicate PageSoFar(runs: Runs, now: Time, cands: seq<RunId>, rest: set<RunId>)
  {
    && |cands| <= CANDIDATE_LIMIT && rest <= ClaimableIds(runs, now)
    && (forall i :: 0 <= i < |cands| ==> cands[i] !in rest)
    && (forall x :: x in ClaimableIds(runs, now) ==> x in rest || x in cands)
    && |cands| + |rest| == |ClaimableIds(runs, now)|
    && OrderedCandidates(runs, now, cands)
    && forall x, i :: x in rest && 0 <= i < |cands| ==> !Before(runs[x], runs[cands[i]], now)
  }

  lemma {:induction false} EmptyPage(runs: Runs, now: Time)
    ensures PageSoFar(runs, now, [], ClaimableIds(runs, now)) && ClaimableIds(runs, now) <= runs.Keys
  {
  }

  lemma {:induction false} PageGrows(runs: Runs, now: Time, cands: seq<RunId>, rest: set<RunId>, next: RunId)
    requires rest <= runs.Keys && PageSoFar(runs, now, cands, rest) && IsFirst(runs, rest, next, now)
    requires |cands| < CANDIDATE_LIMIT
    ensures PageSoFar(runs, now, cands + [next], rest - {next})
  {
    hide Before;
    hide Claimable;
    var longer := cands + [next];
    forall x | x in ClaimableIds(runs, now)
      ensures x in rest - {next} || x in longer
    {
      if x in cands {
        var i :| 0 <= i < |cands| && cands[i] == x;
        assert longer[i] == x;
      }
      assert longer[|cands|] == next;
    }
  }

  lemma {:induction false} PageDone(runs: Runs, now: Time, cands: seq<RunId>, rest: set<RunId>)
    requires PageSoFar(runs, now, cands, rest) && (|cands| >= CANDIDATE_LIMIT || rest == {})
    ensures FirstPage(runs, now, cands)
  {
  }

  // The leases chosen so far all expired no later than those left.
  ghost predicate RequeueSoFar(runs: Runs, now: Time, limit: int, ids: set<RunId>, rest: set<RunId>)
  {
    && rest !! ids && rest + ids == ExpiredIds(runs, now) && |ids| <= Max(limit, 0)
    && forall a, b :: a in ids && b in rest ==> runs[a].leaseExpiresAt.value <= runs[b].leaseExpiresAt.value
  }

  lemma {:induction false} NothingRequeued(runs: Runs, now: Time, limit: int)
    ensures RequeueSoFar(runs, now, limit, {}, ExpiredIds(runs, now))
  {
  }

  lemma {:induction false} RequeueGrows(runs: Runs, now: Time, limit: int, ids: set<RunId>, rest: set<RunId>, next: RunId)
    requires RequeueSoFar(runs, now, limit, ids, rest) && rest <= ExpiredIds(runs, now) && |ids| < limit
    requires EarliestExpired(runs, rest, next)
    ensures RequeueSoFar(runs, now, limit, ids + {next}, rest - {next})
  {
  }

  lemma {:induction false} RequeueChosen(runs: Runs, now: Time, limit: int, ids: set<RunId>, rest: set<RunId>)
    requires RequeueSoFar(runs, now, limit, ids, rest) && (|ids| >= limit || rest == {})
    ensures RequeueChoice(runs, now, limit, ids)
  {
    assert rest == ExpiredIds(runs, now) - ids;
    assert |ExpiredIds(runs, now)| == |ids| + |rest|;
  }

  // ORDER BY created_at DESC, id DESC
  predicate NewerRow(a: Run, aId: RunId, b: Run, bId: RunId)
  {
    a.createdAt > b.createdAt || (a.createdAt == b.createdAt && aId > bId)
  }

  // No row of the set comes before this one.
  predicate IsFirst(runs: Runs, rest: set<RunId>, f: RunId, now: Time)
    requires rest <= runs.Keys
  {
    f in rest && forall x :: x in rest ==> !Before(runs[x], runs[f], now)
  }

  lemma {:induction false} FirstExists(runs: Runs, rest: set<RunId>, now: Time)
    requires rest != {} && rest <= runs.Keys
    ensures exists f :: f in rest && IsFirst(runs, rest, f, now)
  {
    hide Rank;
    var y :| y in rest;
    var others := rest - {y};
    if others == {} {
      assert rest == {y};
      assert IsFirst(runs, rest, y, now);
    } else {
      FirstExists(runs, others, now);
      var f :| f in others && IsFirst(runs, others, f, now);
      assert forall x :: x in rest ==> x == y || x in others;
      assert IsFirst(runs, rest, if Before(runs[y], runs[f], now) then y else f, now);
    }
  }

  // No row of the set has a lease that expired before this one's.
  predicate EarliestExpired(runs: Runs, rest: set<RunId>, f: RunId)
    requires forall x :: x in rest ==> x in runs && runs[x].leaseExpiresAt.Some?
  {
    f in rest && forall x :: x in rest ==> runs[f].leaseExpiresAt.value <= runs[x].leaseExpiresAt.value
  }

  lemma {:induction false} EarliestExists(runs: Runs, rest: set<RunId>)
    requires rest != {} && forall x :: x in rest ==> x in runs && runs[x].leaseExpiresAt.Some?
    ensures exists f :: f in rest && EarliestExpired(runs, rest, f)
  {
    var y :| y in rest;
    var others := rest - {y};
    if others == {} {
      assert rest == {y};
      assert EarliestExpired(runs, rest, y);
    } else {
      EarliestExists(runs, others);
      var f :| f in others && EarliestExpired(runs, others, f);
      var g := if runs[y].leaseExpiresAt.value < runs[f].leaseExpiresAt.value then y else f;
      assert forall x :: x in rest ==> x == y || x in others;
      assert EarliestExpired(runs, rest, g);
    }
  }

  class Store {
    var runs: Runs

    constructor ()
      ensures runs == map[]
    {
      runs := map[];
    }

    // create_run_with_semantic_dedupe_key
    method CreateRun(id: RunId, row: Run) returns (created: bool)
      requires id !in runs
      modifies this
      ensures created <==> InsertAllowed(old(runs), row)
      ensures runs == if created then old(runs)[id := row] else old(runs)
    {
      created := forall other :: other in runs ==> !Collides(runs[other], row.tenant, row.dedupeKey);
      if created {
        runs := runs[id := row];
      }
    }

    // get_active_run_id_by_semantic_dedupe_key: the newest active row holding the key
    method ActiveRunId(tenant: Tenant, key: Option<Json.Json>) returns (r: Option<RunId>)
      ensures r.Some? ==> r.value in runs && Collides(runs[r.value], tenant, key)
      ensures r.Some? ==> forall x :: x in runs && Collides(runs[x], tenant, key) ==>
                            runs[x].createdAt < runs[r.value].createdAt ||
                            (runs[x].createdAt == runs[r.value].createdAt && x <= r.value)
      ensures r.None? ==> forall x :: x in runs ==> !Collides(runs[x], tenant, key)
    {
      r := None;
      var todo := set x | x in runs && Collides(runs[x], tenant, key);
      while todo != {}
        invariant forall x :: x in todo ==> x in runs && Collides(runs[x], tenant, key)
        invariant r.Some? ==> r.value in runs && Collides(runs[r.value], tenant, key)
        invariant forall x :: x in runs && Collides(runs[x], tenant, key) && x !in todo ==>
                    r.Some? && !NewerRow(runs[x], x, runs[r.value], r.value)
        decreases todo
      {
        var x :| x in todo;
        todo := todo - {x};
        if r.None? || NewerRow(runs[x], x, runs[r.value], r.value) {
          r := Some(x);
        }
      }
    }

    // The candidate query.
    method SelectCandidates(now: Time) returns (cands: seq<RunId>)
      ensures FirstPage(runs, now, cands)
    {
      hide FirstPage;
      hide PageSoFar;
      hide IsFirst;
      cands := [];
      var rest := ClaimableIds(runs, now);
      EmptyPage(runs, now);
      while |cands| < CANDIDATE_LIMIT && rest != {}
        invariant rest <= runs.Keys && PageSoFar(runs, now, cands, rest)
        decreases rest
      {
        FirstExists(runs, rest, now);
        var next :| next in rest && IsFirst(runs, rest, next, now);
        PageGrows(runs, now, cands, rest, next);
        cands := cands + [next];
        rest := rest - {next};
      }
      PageDone(runs, now, cands, rest);
    }

    // claim_next_queued_run_with_limits, run without interference from other workers
    method ClaimNext(worker: Worker, leaseMs: nat, globalMax: int, tenantMax: int, now: Time, cands: seq<RunId>)
      returns (claimed: Option<RunId>)
      requires FirstPage(runs, now, cands)
      modifies this
      ensures claimed == ClaimChoice(old(runs), cands, globalMax, tenantMax)
      ensures runs == if claimed.None? then old(runs)
                      else old(runs)[claimed.value := Claimed(old(runs)[claimed.value], worker, now, leaseMs)]
    {
      claimed := None;
      var globalCap, tenantCap := Max(globalMax, 1), Max(tenantMax, 1);
      if cands == [] || |RunningIn(runs, None)| >= globalCap {
        return;
      }
      var i := 0;
      while i < |cands|
        invariant 0 <= i <= |cands| && runs == old(runs) && claimed.None?
        invariant Choose(runs, cands, tenantMax) == Choose(runs, cands[i..], tenantMax)
      {
        var id := cands[i];
        if |RunningIn(runs, Some(runs[id].tenant))| >= tenantCap {
          i := i + 1;
          continue;
        }
        if Claimable(runs[id], now) {
          runs := runs[id := Claimed(runs[id], worker, now, leaseMs)];
          return Some(id);
        }
        i := i + 1;
      }
    }

    // renew_run_lease
    method RenewLease(id: RunId, worker: Worker, leaseMs: nat, now: Time) returns (renewed: bool)
      modifies this
      ensures renewed <==> id in old(runs) && Renewable(old(runs)[id], worker, now)
      ensures runs == if renewed then old(runs)[id := Renewed(old(runs)[id], now, leaseMs)] else old(runs)
    {
      renewed := id in runs && Renewable(runs[id], worker, now);
      if renewed {
        runs := runs[id := Renewed(runs[id], now, leaseMs)];
      }
    }

    // mark_run_succeeded and mark_run_failed, on either backend
    method MarkFinished(id: RunId, worker: Worker, outcome: Status, now: Time, sqlite: bool) returns (done: bool)
      modifies this
      ensures done <==> id in old(runs) &&
                        if sqlite then FinishableSqlite(old(runs)[id], worker) else Finishable(old(runs)[id], worker)
      ensures runs == if done then old(runs)[id := Finished(old(runs)[id], outcome, now)] else old(runs)
    {
      done := id in runs && if sqlite then FinishableSqlite(runs[id], worker) else Finishable(runs[id], worker);
      if done {
        runs := runs[id := Finished(runs[id], outcome, now)];
      }
    }

    // requeue_expired_runs
    method RequeueExpired(now: Time, limit: int) returns (count: nat)
      modifies this
      ensures exists ids :: RequeueChoice(old(runs), now, limit, ids) && |ids| == count &&
                            runs == RequeueAll(old(runs), ids)
    {
      hide RequeueSoFar;
      hide EarliestExpired;
      var ids: set<RunId> := {};
      var rest := ExpiredIds(runs, now);
      NothingRequeued(runs, now, limit);
      while |ids| < limit && rest != {}
        invariant rest <= ExpiredIds(runs, now) && RequeueSoFar(runs, now, limit, ids, rest) && runs == old(runs)
        decreases rest
      {
        EarliestExists(runs, rest);
        var next :| next in rest && EarliestExpired(runs, rest, next);
        RequeueGrows(runs, now, limit, ids, rest, next);
        ids := ids + {next};
        rest := rest - {next};
      }
      RequeueChosen(runs, now, limit, ids, rest);
      runs := RequeueAll(runs, ids);
      count := |ids|;
    }
  }

  lemma {:induction false} SkippedAreFull(runs: Runs, cands: seq<RunId>, tenantMax: int, i: nat)
    requires forall k :: 0 <= k < |cands| ==> cands[k] in runs
    requires Distinct(cands) && i < |cands| && Choose(runs, cands, tenantMax) == Some(cands[i])
    ensures forall k :: 0 <= k < i ==> TenantFull(runs, runs[cands[k]].tenant, tenantMax)
  {
    if i > 0 {
      assert cands[0] != cands[i];
      SkippedAreFull(runs, cands[1..], tenantMax, i - 1);
      assert forall k :: 0 < k < i ==> cands[k] == cands[1..][k - 1];
    }
  }

  /** A requeue on its own takes the leases that ran out first, as many as there are up to the limit. */
  lemma {:induction false} RequeueTakesEarliest(runs: Runs, now: Time, limit: int, ids: set<RunId>, a: RunId, b: RunId)
    requires RequeueChoice(runs, now, limit, ids) && a in ids && b in runs && b !in ids
    requires runs[b].status.Running? && runs[b].leaseExpiresAt.Some? && runs[b].leaseExpiresAt.value < now
    ensures a in runs && runs[a].leaseExpiresAt.Some? && runs[a].leaseExpiresAt.value <= runs[b].leaseExpiresAt.value
    ensures |ids| == limit
  {
    assert b in ExpiredIds(runs, now) - ids;
    StrictSubsetSize(ids, ExpiredIds(runs, now), b);
    assert ids != {};
  }

  /** A claim never passes over an earlier claimable run whose tenant is under its cap. */
  lemma {:induction false} NoOvertaking(runs: Runs, now: Time, cands: seq<RunId>, globalMax: int, tenantMax: int, x: RunId)
    requires FirstPage(runs, now, cands) && x in ClaimableIds(runs, now)
    ensures var chosen := ClaimChoice(runs, cands, globalMax, tenantMax);
            chosen.Some? && Before(runs[x], runs[chosen.value], now) ==> TenantFull(runs, runs[x].tenant, tenantMax)
  {
    var chosen := ClaimChoice(runs, cands, globalMax, tenantMax);
    if chosen.Some? && Before(runs[x], runs[chosen.value], now) {
      var i :| 0 <= i < |cands| && cands[i] == chosen.value;
      SkippedAreFull(runs, cands, tenantMax, i);
      assert x in cands;
      var k :| 0 <= k < |cands| && cands[k] == x;
      assert k < i;
    }
  }

  /** Whom a claim serves: the row it takes is queued without a live lease, with both counts below their caps;
      batch work younger than fifteen minutes is never taken while other open work waits; and among open rows
      alike in this the oldest is taken. */
  lemma {:induction false} ClaimOrder(runs: Runs, now: Time, cands: seq<RunId>, globalMax: int, tenantMax: int, c: RunId, x: RunId)
    requires FirstPage(runs, now, cands) && ClaimChoice(runs, cands, globalMax, tenantMax) == Some(c)
    requires x in runs && runs[x].status.Queued? && (runs[x].leaseExpiresAt.Some? ==> runs[x].leaseExpiresAt.value < now)
    requires |set r | r in runs && runs[r].status.Running? && runs[r].tenant == runs[x].tenant| < Max(tenantMax, 1)
    ensures c in runs && runs[c].status.Queued? && (runs[c].leaseExpiresAt.Some? ==> runs[c].leaseExpiresAt.value < now)
    ensures |set r | r in runs && runs[r].status.Running?| < Max(globalMax, 1)
    ensures |set r | r in runs && runs[r].status.Running? && runs[r].tenant == runs[c].tenant| < Max(tenantMax, 1)
    ensures var youngC := YoungBatch(runs[c].queueClass, runs[c].llmQueueClass, runs[c].createdAt, now);
            var youngX := YoungBatch(runs[x].queueClass, runs[x].llmQueueClass, runs[x].createdAt, now);
            && (youngC ==> youngX)
            && (youngC == youngX ==> runs[c].createdAt <= runs[x].createdAt)
  {
    assert x in ClaimableIds(runs, now);
    assert (set r | r in runs && runs[r].status.Running? && runs[r].tenant == runs[x].tenant) ==
           RunningIn(runs, Some(runs[x].tenant));
    assert (set r | r in runs && runs[r].status.Running?) == RunningIn(runs, None);
    assert (set r | r in runs && runs[r].status.Running? && runs[r].tenant == runs[c].tenant) ==
           RunningIn(runs, Some(runs[c].tenant));
    NoOvertaking(runs, now, cands, globalMax, tenantMax, x);
    hide Rank;
    hide YoungBatch;
    RankMeaning(runs[c], now);
    RankMeaning(runs[x], now);
  }

  /** Once a batch run is fifteen minutes old, no run created after it is claimed ahead of it. */
  lemma {:induction false} AgedBatchIsNotPassed(runs: Runs, now: Time, cands: seq<RunId>, globalMax: int, tenantMax: int, b: RunId)
    requires FirstPage(runs, now, cands) && b in ClaimableIds(runs, now)
    requires QueueClass(runs[b].queueClass, runs[b].llmQueueClass) == "batch"
    requires runs[b].createdAt <= now - BATCH_AGING && !TenantFull(runs, runs[b].tenant, tenantMax)
    requires ClaimChoice(runs, cands, globalMax, tenantMax).Some?
    ensures runs[ClaimChoice(runs, cands, globalMax, tenantMax).value].createdAt <= runs[b].createdAt
  {
    var chosen := ClaimChoice(runs, cands, globalMax, tenantMax).value;
    if runs[b].createdAt < runs[chosen].createdAt {
      NoOvertaking(runs, now, cands, globalMax, tenantMax, b);
    }
  }

  // A full page of rows that all belong to tenants at their cap.
  predicate FullPageCapped(runs: Runs, cands: seq<RunId>, tenantMax: int)
    requires forall i :: 0 <= i < |cands| ==> cands[i] in runs
  {
    |cands| == CANDIDATE_LIMIT && forall i :: 0 <= i < |cands| ==> TenantFull(runs, runs[cands[i]].tenant, tenantMax)
  }

  /** While a claimable run of a tenant under its cap waits, a claim returns nothing exactly when the global
      cap is reached or a full 64-row page, none of it behind that run, belongs to tenants at their cap. */
  lemma {:induction false} WaitsOnlyBehindFullPage(runs: Runs, now: Time, cands: seq<RunId>, globalMax: int, tenantMax: int, x: RunId)
    requires FirstPage(runs, now, cands) && x in ClaimableIds(runs, now)
    requires !TenantFull(runs, runs[x].tenant, tenantMax)
    ensures ClaimChoice(runs, cands, globalMax, tenantMax).None? <==>
            |RunningIn(runs, None)| >= Max(globalMax, 1) || FullPageCapped(runs, cands, tenantMax)
    ensures FullPageCapped(runs, cands, tenantMax) ==>
              forall i :: 0 <= i < |cands| ==> !Before(runs[x], runs[cands[i]], now)
  {
    if |cands| == |ClaimableIds(runs, now)| {
      DistinctSize(cands);
      SubsetSameSize(ElementsOf(cands), ClaimableIds(runs, now));
      assert x in ElementsOf(cands);
    }
  }

  // A queued row of the given tenant.
  function Waiting(tenant: Tenant, at: Time): Run
  {
    Run(tenant, Queued, 0, None, None, at, None, None, None, None, None)
  }

  // One running and sixty-four queued runs of a tenant capped at one, then an idle tenant's run.
  function CrowdedRow(id: RunId): Run
  {
    if id == 0 then Claimed(Waiting("busy", 0), "worker", 0, 1)
    else if id < 65 then Waiting("busy", 0)
    else Waiting("idle", 1)
  }

  ghost predicate Crowded(runs: Runs, page: seq<RunId>)
  {
    && (forall id: RunId :: id in runs <==> id < 66)
    && (forall id: RunId :: id in runs ==> runs[id] == CrowdedRow(id))
    && |page| == 64 && forall i :: 0 <= i < 64 ==> page[i] == i + 1
  }

  lemma {:induction false} CrowdedPage(runs: Runs, page: seq<RunId>)
    requires Crowded(runs, page)
    ensures FirstPage(runs, 2, page) && 65 in ClaimableIds(runs, 2)
  {
    DistinctSize(page);
    SubsetSize(ElementsOf(page), ClaimableIds(runs, 2));
    forall x | 1 <= x < 65
      ensures x in page
    {
      assert page[x - 1] == x;
    }
    assert forall x :: x in ClaimableIds(runs, 2) && x !in page ==> x == 65;
  }

  /** The page limit can starve: nothing is claimed although an idle tenant's run waits under every cap. */
  lemma {:induction false} PageLimitStarves(runs: Runs, page: seq<RunId>)
    requires Crowded(runs, page)
    ensures FirstPage(runs, 2, page)
    ensures 65 in ClaimableIds(runs, 2) && !TenantFull(runs, runs[65].tenant, 1)
    ensures ClaimChoice(runs, page, 100, 1).None?
  {
    CrowdedPage(runs, page);
    hide FirstPage;
    hide Claimable;
    assert RunningIn(runs, Some("busy")) == {0};
    assert RunningIn(runs, Some("idle")) == {};
  }
}
