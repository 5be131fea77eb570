// The SIEM delivery outbox: workers claim rows, attempt delivery, and mark the outcome.
module SiemOutbox {
  import opened Prelude
  import RunTable

  type RecordId = nat
  type Worker = string

  datatype Status = Pending | Processing | Failed | Delivered | DeadLettered

  datatype Record = Record(
    tenant: string,
    status: Status,
    attempts: nat,
    maxAttempts: nat,
    nextAttemptAt: Time,
    leasedBy: Option<Worker>,
    leaseExpiresAt: Option<Time>,
    createdAt: Time)

  type Outbox = map<RecordId, Record>

  // max_attempts.clamp(1, 100)
  function Clamp(n: int): (r: nat)
    ensures 1 <= r <= 100
  {
    Max(1, Min(n, 100))
  }

  function NewRecord(tenant: string, maxAttempts: int, now: Time): Record
  {
    Record(tenant, Pending, 0, Clamp(maxAttempts), now, None, None, now)
  }

  // Only pending and failed rows; an expired 'processing' row is never taken again.
  predicate Claimable(r: Record, now: Time)
  {
    && (r.status.Pending? || r.status.Failed?) && r.nextAttemptAt <= now
    && (r.leaseExpiresAt.None? || r.leaseExpiresAt.value <= now)
  }

  function ClaimableIds(box: Outbox, now: Time): set<RecordId>
  {
    set id | id in box && Claimable(box[id], now)
  }

  // ORDER BY next_attempt_at, created_at, id
  predicate Before(box: Outbox, a: RecordId, b: RecordId)
    requires a in box && b in box
  {
    || box[a].nextAttemptAt < box[b].nextAttemptAt
    || (box[a].nextAttemptAt == box[b].nextAttemptAt &&
        (box[a].createdAt < box[b].createdAt || (box[a].createdAt == box[b].createdAt && a < b)))
  }

  predicate ClaimChoice(box: Outbox, now: Time, limit: int, ids: set<RecordId>)
  {
    && ids <= ClaimableIds(box, now)
    && |ids| == Min(Clamp(limit), |ClaimableIds(box, now)|)
    && forall a, b :: a in ids && b in ClaimableIds(box, now) - ids ==> !Before(box, b, a)
  }

  // With other claims about, locked rows are skipped: any claimable rows up to the limit.
  predicate ClaimAllowed(box: Outbox, now: Time, limit: int, ids: set<RecordId>)
  {
    ids <= ClaimableIds(box, now) && |ids| <= Clamp(limit)
  }

  function Claimed(r: Record, worker: Worker, now: Time, leaseMs: nat): Record
  {
    r.(status := Processing, leasedBy := Some(worker), leaseExpiresAt := Some(now + RunTable.LeaseFor(leaseMs)))
  }

  function ClaimAll(box: Outbox, ids: set<RecordId>, worker: Worker, now: Time, leaseMs: nat): Outbox
  {
    map id | id in box :: if id in ids then Claimed(box[id], worker, now, leaseMs) else box[id]
  }

  // The three mark statements; none of them looks at the status of the row.
  datatype Outcome = Succeeded | Retry(at: Time) | Rejected

  function Marked(r: Record, o: Outcome, now: Time): Record
  {
    match o
    case Succeeded => r.(status := Delivered, attempts := r.attempts + 1, leasedBy := None, leaseExpiresAt := None)
    case Retry(at) =>
      if r.attempts + 1 >= r.maxAttempts then Dead(r, now)
      else r.(status := Failed, attempts := r.attempts + 1, leasedBy := None, leaseExpiresAt := None, nextAttemptAt := at)
    case Rejected => Dead(r, now)
  }

  function Dead(r: Record, now: Time): Record
  {
    r.(status := DeadLettered, attempts := r.attempts + 1, leasedBy := None, leaseExpiresAt := None, nextAttemptAt := now)
  }

  function Replayed(r: Record, at: Time): Record
  {
    r.(status := Pending, attempts := 0, nextAttemptAt := at, leasedBy := None, leaseExpiresAt := None)
  }

  lemma {:induction false} BeforeTransitive(box: Outbox, a: RecordId, b: RecordId, c: RecordId)
    requires a in box && b in box && c in box && Before(box, a, b) && Before(box, b, c)
    ensures Before(box, a, c)
  {
  }

  lemma {:induction false} BeforeIrreflexive(box: Outbox, a: RecordId)
    requires a in box
    ensures !Before(box, a, a)
  {
  }

  predicate IsFirst(box: Outbox, rest: set<RecordId>, f: RecordId)
    requires rest <= box.Keys
  {
    f in rest && forall x :: x in rest ==> !Before(box, x, f)
  }

  lemma {:induction false} FirstExists(box: Outbox, rest: set<RecordId>)
    requires rest != {} && rest <= box.Keys
    ensures exists f :: IsFirst(box, rest, f)
  {
    hide Before;
    var y :| y in rest;
    BeforeIrreflexive(box, y);
    var others := rest - {y};
    if others == {} {
      assert rest == {y};
      assert IsFirst(box, rest, y);
    } else {
      FirstExists(box, others);
      var f :| IsFirst(box, others, f);
      if Before(box, y, f) {
        forall x | x in others
          ensures !Before(box, x, y)
        {
          if Before(box, x, y) {
            BeforeTransitive(box, x, y, f);
          }
        }
        assert IsFirst(box, rest, y);
      } else {
        assert IsFirst(box, rest, f);
      }
    }
  }

  class Store {
    var box: Outbox

    constructor ()
      ensures box == map[]
    {
      box := map[];
    }

    method Create(id: RecordId, tenant: string, maxAttempts: int, now: Time)
      requires id !in box
      modifies this
      ensures box == old(box)[id := NewRecord(tenant, maxAttempts, now)]
    {
      box := box[id := NewRecord(tenant, maxAttempts, now)];
    }

    // claim_pending_compliance_siem_delivery_records
    method Claim(worker: Worker, leaseMs: nat, limit: int, now: Time) returns (ids: set<RecordId>)
      modifies this
      ensures ClaimChoice(old(box), now, limit, ids)
      ensures box == ClaimAll(old(box), ids, worker, now, leaseMs)
    {
      ids := {};
      var rest := ClaimableIds(box, now);
      while |ids| < Clamp(limit) && rest != {}
        invariant rest !! ids && rest + ids == ClaimableIds(box, now) && box == old(box)
        invariant |ids| <= Clamp(limit)
        invariant forall a, b :: a in ids && b in rest ==> !Before(box, b, a)
        decreases rest
      {
        FirstExists(box, rest);
        var next :| next in rest && IsFirst(box, rest, next);
        ids := ids + {next};
        rest := rest - {next};
      }
      assert rest == ClaimableIds(box, now) - ids;
      assert |ClaimableIds(box, now)| == |ids| + |rest|;
      box := ClaimAll(box, ids, worker, now, leaseMs);
    }

    // mark_compliance_siem_delivery_record_delivered, _failed and _dead_lettered
    method Mark(id: RecordId, o: Outcome, now: Time) returns (found: bool)
      modifies this
      ensures found <==> id in old(box)
      ensures box == if found then old(box)[id := Marked(old(box)[id], o, now)] else old(box)
    {
      found := id in box;
      if found {
        box := box[id := Marked(box[id], o, now)];
      }
    }

    // requeue_dead_letter_compliance_siem_delivery_record
    method Replay(tenant: string, id: RecordId, at: Time) returns (replayed: bool)
      modifies this
      ensures replayed <==> id in old(box) && old(box)[id].tenant == tenant && old(box)[id].status.DeadLettered?
      ensures box == if replayed then old(box)[id := Replayed(old(box)[id], at)] else old(box)
    {
      replayed := id in box && box[id].tenant == tenant && box[id].status.DeadLettered?;
      if replayed {
        box := box[id := Replayed(box[id], at)];
      }
    }
  }

  /** A claim on its own takes the due records first in line: none left behind is due earlier, or as early and
      created earlier, or as old with a smaller id; and it takes as many as there are, up to 1..100. */
  lemma {:induction false} ClaimTakesFirst(box: Outbox, now: Time, limit: int, ids: set<RecordId>, a: RecordId, b: RecordId)
    requires ClaimChoice(box, now, limit, ids) && a in ids && b in box && b !in ids
    requires (box[b].status.Pending? || box[b].status.Failed?) && box[b].nextAttemptAt <= now
    requires box[b].leaseExpiresAt.Some? ==> box[b].leaseExpiresAt.value <= now
    ensures a in box && box[a].nextAttemptAt <= box[b].nextAttemptAt
    ensures box[a].nextAttemptAt == box[b].nextAttemptAt ==> box[a].createdAt <= box[b].createdAt
    ensures box[a].nextAttemptAt == box[b].nextAttemptAt && box[a].createdAt == box[b].createdAt ==> a < b
    ensures |ids| == (if limit < 1 then 1 else if limit > 100 then 100 else limit)
  {
    assert b in ClaimableIds(box, now) - ids && !Before(box, b, a);
    StrictSubsetSize(ids, ClaimableIds(box, now), b);
  }

  // ---------------------------------------------------------------------------------------------
  // Executions in which a worker marks only rows it has claimed, once per claim
  // ---------------------------------------------------------------------------------------------

  // `holders` are the claims not yet marked; `claims` counts claims since creation or the last replay.
  datatype State = State(now: Time, box: Outbox, holders: map<RecordId, set<Worker>>, claims: map<RecordId, nat>)

  datatype Step =
    | Tick(to: Time)
    | Create(id: RecordId, tenant: string, maxAttempts: int)
    | Claim(worker: Worker, leaseMs: nat, limit: int, ids: set<RecordId>)
    | Mark(worker: Worker, id: RecordId, outcome: Outcome)
    | Replay(id: RecordId, at: Time)

  predicate Enabled(s: State, step: Step)
  {
    match step
    case Tick(to) => s.now <= to
    case Create(id, _, _) => id !in s.box
    case Claim(_, _, limit, ids) => ClaimAllowed(s.box, s.now, limit, ids)
    case Mark(w, id, _) => id in s.box && w in HoldersOf(s, id)
    case Replay(id, _) => id in s.box
  }

  function HoldersOf(s: State, id: RecordId): set<Worker>
  {
    if id in s.holders then s.holders[id] else {}
  }

  function ClaimsOf(s: State, id: RecordId): nat
  {
    if id in s.claims then s.claims[id] else 0
  }

  function Apply(s: State, step: Step): State
    requires Enabled(s, step)
  {
    match step
    case Tick(to) => s.(now := to)
    case Create(id, tenant, maxAttempts) =>
      s.(box := s.box[id := NewRecord(tenant, maxAttempts, s.now)],
         holders := s.holders[id := {}], claims := s.claims[id := 0])
    case Claim(w, leaseMs, _, ids) =>
      s.(box := ClaimAll(s.box, ids, w, s.now, leaseMs),
         holders := map id | id in s.box :: if id in ids then HoldersOf(s, id) + {w} else HoldersOf(s, id),
         claims := map id | id in s.box :: if id in ids then ClaimsOf(s, id) + 1 else ClaimsOf(s, id))
    case Mark(w, id, outcome) =>
      s.(box := s.box[id := Marked(s.box[id], outcome, s.now)], holders := s.holders[id := HoldersOf(s, id) - {w}])
    case Replay(id, at) =>
      if s.box[id].status.DeadLettered? then s.(box := s.box[id := Replayed(s.box[id], at)], claims := s.claims[id := 0])
      else s
  }

  ghost predicate Execution(states: seq<State>, steps: seq<Step>)
  {
    && |states| == |steps| + 1 && states[0].box == map[] && states[0].holders == map[] && states[0].claims == map[]
    && forall i :: 0 <= i < |steps| ==> StepTaken(states[i], steps[i], states[i + 1])
  }

  ghost predicate StepTaken(s: State, step: Step, s': State)
  {
    Enabled(s, step) && s' == Apply(s, step)
  }

  // What holds of one row: its holder is exactly its lease, and every claim is either spent as an
  // attempt or still out, so an open row has an attempt left.
  predicate RowInv(s: State, id: RecordId)
  {
    if id !in s.box then HoldersOf(s, id) == {} && ClaimsOf(s, id) == 0
    else
      var r := s.box[id];
      && (r.status.Processing? <==> r.leasedBy.Some?)
      && (r.leasedBy.Some? <==> r.leaseExpiresAt.Some?)
      && HoldersOf(s, id) == (if r.leasedBy.Some? then {r.leasedBy.value} else {})
      && ClaimsOf(s, id) == r.attempts + (if r.status.Processing? then 1 else 0)
      && (r.status.Pending? || r.status.Failed? || r.status.Processing? ==> r.attempts < r.maxAttempts)
      && r.attempts <= r.maxAttempts && r.maxAttempts >= 1
  }

  lemma {:induction false} RowStep(s: State, step: Step, id: RecordId)
    requires Enabled(s, step) && RowInv(s, id)
    ensures RowInv(Apply(s, step), id)
  {
    if step.Claim? && id in step.ids {
      assert id in ClaimableIds(s.box, s.now);
    }
  }

  /** Over every disciplined execution: attempts never exceed max_attempts, open rows are strictly below
      it, no row is held by two workers, and a row is claimed at most max_attempts times between replays. */
  lemma {:induction false} OutboxHolds(states: seq<State>, steps: seq<Step>, i: nat, id: RecordId)
    requires Execution(states, steps) && i < |states|
    ensures RowInv(states[i], id)
    ensures |HoldersOf(states[i], id)| <= 1
    ensures id in states[i].box ==> ClaimsOf(states[i], id) <= states[i].box[id].maxAttempts
  {
    hide Enabled;
    hide Apply;
    if i > 0 {
      OutboxHolds(states, steps, i - 1, id);
      assert StepTaken(states[i - 1], steps[i - 1], states[i - 1 + 1]);
      RowStep(states[i - 1], steps[i - 1], id);
    }
  }

  // ---------------------------------------------------------------------------------------------
  // The life of a record, read off the steps alone
  // ---------------------------------------------------------------------------------------------

  // Open from an instant with some attempts spent, out with a worker until an instant, delivered, or given up.
  datatype Phase =
    | Absent
    | Open(from: Time, spent: nat, limit: nat)
    | Out(holder: Worker, until: Time, taken: nat, bound: nat)
    | Done
    | GivenUp(allowed: nat)

  function PhaseAfter(p: Phase, step: Step, now: Time, id: RecordId): Phase
  {
    match step
    case Create(x, _, maxAttempts) =>
      if x != id then p else Open(now, 0, if maxAttempts < 1 then 1 else if maxAttempts > 100 then 100 else maxAttempts)
    case Claim(w, leaseMs, _, ids) =>
      if id !in ids || !p.Open? then p
      else Out(w, now + Max(1, Min(leaseMs, 0x7FFF_FFFF_FFFF_FFFF)) * 1_000_000, p.spent, p.limit)
    case Mark(_, x, outcome) =>
      if x != id || !p.Out? then p
      else if outcome.Succeeded? then Done
      else if outcome.Retry? && p.taken + 1 < p.bound then Open(outcome.at, p.taken + 1, p.bound)
      else GivenUp(p.bound)
    case Replay(x, at) => if x == id && p.GivenUp? then Open(at, 0, p.allowed) else p
    case Tick(_) => p
  }

  function PhaseOf(states: seq<State>, steps: seq<Step>, i: nat, id: RecordId): Phase
    requires i < |states| && |states| == |steps| + 1
  {
    if i == 0 then Absent else PhaseAfter(PhaseOf(states, steps, i - 1, id), steps[i - 1], states[i - 1].now, id)
  }

  // What the statements see of a record in each phase.
  ghost predicate Shows(box: Outbox, id: RecordId, p: Phase)
  {
    match p
    case Absent => id !in box
    case Open(from, spent, limit) =>
      && id in box && (forall t :: Claimable(box[id], t) <==> from <= t) && !box[id].status.DeadLettered?
      && box[id].attempts == spent && box[id].maxAttempts == limit
    case Out(holder, until, spent, limit) =>
      && id in box && (forall t :: !Claimable(box[id], t)) && !box[id].status.DeadLettered?
      && box[id].leasedBy == Some(holder) && box[id].leaseExpiresAt == Some(until)
      && box[id].attempts == spent && box[id].maxAttempts == limit
    case Done => id in box && (forall t :: !Claimable(box[id], t)) && box[id].status.Delivered?
    case GivenUp(limit) =>
      id in box && (forall t :: !Claimable(box[id], t)) && box[id].status.DeadLettered? && box[id].maxAttempts == limit
  }

  lemma {:induction false} ShowsStep(s: State, step: Step, id: RecordId, p: Phase)
    requires Enabled(s, step) && RowInv(s, id) && Shows(s.box, id, p)
    ensures Shows(Apply(s, step).box, id, PhaseAfter(p, step, s.now, id))
  {
    if step.Claim? && id in step.ids {
      assert id in ClaimableIds(s.box, s.now);
      assert Claimable(s.box[id], s.now);
    }
    if p.Open? {
      assert Claimable(s.box[id], p.from);
    }
  }

  /** In every disciplined execution a record behaves as its own steps say: new and replayed records and
      retried failures are claimable exactly from their due time; a claimed one is leased for exactly the
      given time and not claimable; a delivered one is never claimable and never replayable; one that is
      rejected, or fails its last attempt, is given up and comes back only by a replay. */
  lemma {:induction false} RecordFollowsSteps(states: seq<State>, steps: seq<Step>, i: nat, id: RecordId)
    requires Execution(states, steps) && i < |states|
    ensures Shows(states[i].box, id, PhaseOf(states, steps, i, id))
  {
    hide Enabled;
    hide Apply;
    if i > 0 {
      RecordFollowsSteps(states, steps, i - 1, id);
      OutboxHolds(states, steps, i - 1, id);
      assert StepTaken(states[i - 1], steps[i - 1], states[i - 1 + 1]);
      hide Shows;
      ShowsStep(states[i - 1], steps[i - 1], id, PhaseOf(states, steps, i - 1, id));
    }
  }

  /** A delivered record is never delivered again: after a success mark it never changes. */
  lemma {:induction false} DeliveredIsFinal(states: seq<State>, steps: seq<Step>, i: nat, j: nat, id: RecordId)
    requires Execution(states, steps) && i < j < |states| && steps[i].Mark? && steps[i].id == id && steps[i].outcome.Succeeded?
    ensures id in states[j].box && states[j].box[id].status.Delivered? && states[j].box[id] == states[i + 1].box[id]
    decreases j
  {
    OutboxHolds(states, steps, j - 1, id);
    assert StepTaken(states[j - 1], steps[j - 1], states[j - 1 + 1]);
    if i < j - 1 {
      DeliveredIsFinal(states, steps, i, j - 1, id);
      if steps[j - 1].Claim? {
        assert id !in ClaimableIds(states[j - 1].box, states[j - 1].now);
      }
    }
  }

  /** A retryable failure dead-letters a held row exactly on its last permitted attempt. */
  lemma {:induction false} DeadLettersOnLastAttempt(states: seq<State>, steps: seq<Step>, i: nat, at: Time, id: RecordId)
    requires Execution(states, steps) && i < |states|
    requires id in states[i].box && states[i].box[id].status.Processing?
    ensures Marked(states[i].box[id], Retry(at), states[i].now).status.DeadLettered? <==>
            ClaimsOf(states[i], id) == states[i].box[id].maxAttempts
  {
    OutboxHolds(states, steps, i, id);
  }

  /** A claimed row that its worker never marks is never claimed again, however long its lease has expired. */
  lemma {:induction false} AbandonedClaimStays(states: seq<State>, steps: seq<Step>, i: nat, j: nat, id: RecordId)
    requires Execution(states, steps) && i <= j < |states|
    requires id in states[i].box && states[i].box[id].status.Processing?
    requires forall k :: i <= k < j ==> !(steps[k].Mark? && steps[k].id == id)
    ensures id in states[j].box && states[j].box[id] == states[i].box[id]
    decreases j
  {
    if i < j {
      AbandonedClaimStays(states, steps, i, j - 1, id);
      assert StepTaken(states[j - 1], steps[j - 1], states[j - 1 + 1]);
      if steps[j - 1].Claim? {
        assert id !in ClaimableIds(states[j - 1].box, states[j - 1].now);
      }
    }
  }

  /** The discipline is needed: a second mark of one claim takes attempts past the limit. */
  lemma {:induction false} SecondMarkExceedsLimit(now: Time)
    ensures var r := Claimed(NewRecord("tenant", 1, now), "worker", now, 1);
            var twice := Marked(Marked(r, Succeeded, now), Succeeded, now);
            twice.attempts > twice.maxAttempts
  {
  }
}
