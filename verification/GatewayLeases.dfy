// Admission slots of the LLM gateway: numbered leases per lane, taken when free or expired.
module GatewayLeases {
  import opened Prelude
  import RunTable

  // namespace and lane
  type Lane = (string, string)
  type LeaseId = nat
  type SlotId = (Lane, nat)

  datatype Lease = Lease(id: LeaseId, owner: string, expiresAt: Time)
  type Table = map<SlotId, Lease>

  predicate Live(table: Table, lane: Lane, slot: nat, now: Time)
  {
    (lane, slot) in table && table[(lane, slot)].expiresAt > now
  }

  // The candidate query: the least slot from `from` up to `max` that is not live.
  function FirstFree(table: Table, lane: Lane, from: nat, max: int, now: Time): (r: Option<nat>)
    ensures r.Some? ==> from <= r.value <= max && !Live(table, lane, r.value, now)
    ensures r.Some? ==> forall s: nat :: from <= s < r.value ==> Live(table, lane, s, now)
    ensures r.None? <==> forall s: nat :: from <= s <= max ==> Live(table, lane, s, now)
    decreases max - from
  {
    if from > max then None
    else if !Live(table, lane, from, now) then Some(from)
    else FirstFree(table, lane, from + 1, max, now)
  }

  // The upsert: it replaces an existing row only when that row has expired.
  function Upsert(table: Table, lane: Lane, slot: nat, lease: Lease, now: Time): Table
  {
    if Live(table, lane, slot, now) then table else table[(lane, slot) := lease]
  }

  function Released(table: Table, lane: Lane, slot: nat, id: LeaseId): Table
  {
    if (lane, slot) in table && table[(lane, slot)].id == id then table - {(lane, slot)} else table
  }

  class LeaseTable {
    var table: Table

    constructor ()
      ensures table == map[]
    {
      table := map[];
    }

    // try_acquire_llm_gateway_admission_lease without interference: it fails exactly when every slot
    // up to the limit is live, and otherwise takes the least free one.
    method TryAcquire(lane: Lane, max: int, id: LeaseId, owner: string, leaseMs: nat, now: Time) returns (slot: Option<nat>)
      modifies this
      ensures slot.None? <==> forall s: nat :: 1 <= s <= max ==>
                                (lane, s) in old(table) && old(table)[(lane, s)].expiresAt > now
      ensures slot.None? ==> table == old(table)
      ensures slot.Some? ==> 1 <= slot.value <= max
      ensures slot.Some? && (lane, slot.value) in old(table) ==> old(table)[(lane, slot.value)].expiresAt <= now
      ensures slot.Some? ==> forall s: nat :: 1 <= s < slot.value ==>
                               (lane, s) in old(table) && old(table)[(lane, s)].expiresAt > now
      ensures slot.Some? ==>
                table == old(table)[(lane, slot.value) := Lease(id, owner, now + RunTable.LeaseFor(leaseMs))]
    {
      slot := None;
      if max <= 0 {
        return;
      }
      var candidate := FirstFree(table, lane, 1, max, now);
      forall s: nat | 1 <= s <= (if candidate.None? then max else candidate.value - 1)
        ensures (lane, s) in table && table[(lane, s)].expiresAt > now
      {
        assert Live(table, lane, s, now);
      }
      if candidate.None? {
        return;
      }
      table := Upsert(table, lane, candidate.value, Lease(id, owner, now + RunTable.LeaseFor(leaseMs)), now);
      slot := candidate;
    }

    // release_llm_gateway_admission_lease
    method Release(lane: Lane, slot: nat, id: LeaseId) returns (released: bool)
      modifies this
      ensures released <==> (lane, slot) in old(table) && old(table)[(lane, slot)].id == id
      ensures table == if released then old(table) - {(lane, slot)} else old(table)
    {
      released := (lane, slot) in table && table[(lane, slot)].id == id;
      if released {
        table := table - {(lane, slot)};
      }
    }
  }

  // ---------------------------------------------------------------------------------------------
  // Executions: acquires may upsert a slot chosen from an outdated snapshot
  // ---------------------------------------------------------------------------------------------

  datatype State = State(now: Time, table: Table, used: set<LeaseId>)

  datatype Step =
    | Tick(to: Time)
    | Acquire(lane: Lane, slot: nat, id: LeaseId, owner: string, leaseMs: nat)
    | Release(lane: Lane, slot: nat, id: LeaseId)

  // Every caller of a lane passes the same limit, and lease ids are never reused.
  predicate Enabled(limit: Lane -> int, s: State, step: Step)
  {
    match step
    case Tick(to) => s.now <= to
    case Acquire(lane, slot, id, _, _) => 1 <= slot <= limit(lane) && id !in s.used
    case Release(_, _, _) => true
  }

  function Apply(s: State, step: Step): State
  {
    match step
    case Tick(to) => s.(now := to)
    case Acquire(lane, slot, id, owner, leaseMs) =>
      s.(table := Upsert(s.table, lane, slot, Lease(id, owner, s.now + RunTable.LeaseFor(leaseMs)), s.now),
         used := s.used + {id})
    case Release(lane, slot, id) => s.(table := Released(s.table, lane, slot, id))
  }

  ghost predicate Execution(limit: Lane -> int, states: seq<State>, steps: seq<Step>)
  {
    && |states| == |steps| + 1 && states[0].table == map[] && states[0].used == {}
    && forall i :: 0 <= i < |steps| ==> Enabled(limit, states[i], steps[i]) && states[i + 1] == Apply(states[i], steps[i])
  }

  function LiveSlots(s: State, lane: Lane): set<nat>
  {
    set k | k in s.table && k.0 == lane && Live(s.table, lane, k.1, s.now) :: k.1
  }

  ghost predicate Inv(limit: Lane -> int, s: State)
  {
    forall k :: k in s.table ==> 1 <= k.1 <= limit(k.0) && s.table[k].id in s.used
  }

  lemma {:induction false} InvHolds(limit: Lane -> int, states: seq<State>, steps: seq<Step>, i: nat)
    requires Execution(limit, states, steps) && i < |states|
    ensures Inv(limit, states[i])
  {
    if i > 0 {
      InvHolds(limit, states, steps, i - 1);
      assert Enabled(limit, states[i - 1], steps[i - 1]) && states[i] == Apply(states[i - 1], steps[i - 1]);
    }
  }

  /** Over any interleaving a lane never has more live leases than its limit. */
  lemma {:induction false} LiveLeasesBounded(limit: Lane -> int, states: seq<State>, steps: seq<Step>, i: nat, lane: Lane)
    requires Execution(limit, states, steps) && i < |states|
    ensures |LiveSlots(states[i], lane)| <= Max(limit(lane), 0)
  {
    InvHolds(limit, states, steps, i);
    var live := LiveSlots(states[i], lane);
    if limit(lane) <= 0 {
      assert live == {};
    } else {
      CountUpTo(live, limit(lane));
    }
  }

  /** No acquire ever disturbs a live lease: until it expires or is released it keeps its slot. */
  lemma {:induction false} LiveLeaseKept(limit: Lane -> int, s: State, step: Step, lane: Lane, slot: nat)
    requires Enabled(limit, s, step) && Live(s.table, lane, slot, s.now)
    requires !(step.Release? && step.lane == lane && step.slot == slot && step.id == s.table[(lane, slot)].id)
    ensures (lane, slot) in Apply(s, step).table && Apply(s, step).table[(lane, slot)] == s.table[(lane, slot)]
  {
  }

  // The step granted the slot to this lease id.
  predicate Grants(s: State, step: Step, lane: Lane, slot: nat, id: LeaseId)
  {
    step.Acquire? && step.lane == lane && step.slot == slot && step.id == id && !Live(s.table, lane, slot, s.now)
  }

  predicate Lost(s: State, lane: Lane, slot: nat, id: LeaseId)
  {
    id in s.used && ((lane, slot) in s.table ==> s.table[(lane, slot)].id != id)
  }

  lemma {:induction false} LostForever(limit: Lane -> int, states: seq<State>, steps: seq<Step>, i: nat, j: nat,
                                       lane: Lane, slot: nat, id: LeaseId)
    requires Execution(limit, states, steps) && i <= j < |states| && Lost(states[i], lane, slot, id)
    ensures Lost(states[j], lane, slot, id)
    decreases j
  {
    if i < j {
      LostForever(limit, states, steps, i, j - 1, lane, slot, id);
      assert Enabled(limit, states[j - 1], steps[j - 1]) && states[j] == Apply(states[j - 1], steps[j - 1]);
    }
  }

  /** A holder whose slot was taken by someone else after expiry can release it at any later time without
      any effect. */
  lemma {:induction false} StaleReleaseHarmless(limit: Lane -> int, states: seq<State>, steps: seq<Step>, i: nat, k: nat, j: nat,
                             lane: Lane, slot: nat, id: LeaseId, other: LeaseId)
    requires Execution(limit, states, steps) && i < k < |steps| && k < j < |states|
    requires Grants(states[i], steps[i], lane, slot, id) && Grants(states[k], steps[k], lane, slot, other)
    ensures Released(states[j].table, lane, slot, id) == states[j].table
  {
    assert states[i + 1] == Apply(states[i], steps[i]);
    UsedGrows(limit, states, steps, i + 1, k, id);
    assert Enabled(limit, states[k], steps[k]) && states[k + 1] == Apply(states[k], steps[k]);
    LostForever(limit, states, steps, k + 1, j, lane, slot, id);
  }

  lemma {:induction false} UsedGrows(limit: Lane -> int, states: seq<State>, steps: seq<Step>, i: nat, j: nat, id: LeaseId)
    requires Execution(limit, states, steps) && i <= j < |states| && id in states[i].used
    ensures id in states[j].used
    decreases j
  {
    if i < j {
      UsedGrows(limit, states, steps, i, j - 1, id);
      assert states[j - 1 + 1] == Apply(states[j - 1], steps[j - 1]);
    }
  }
}
