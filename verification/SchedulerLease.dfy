// The scheduler lease: one statement that inserts or conditionally takes over a named lease.
module SchedulerLease {
  import opened Prelude
  import RunTable

  type Owner = string

  datatype Lease = Lease(owner: Owner, expiresAt: Time)
  datatype Grant = Grant(name: string, owner: Owner, at: Time, expiresAt: Time)
  datatype State = State(now: Time, leases: map<string, Lease>, grants: seq<Grant>)

  datatype Step = Tick(to: Time) | Acquire(name: string, owner: Owner, leaseMs: nat)

  predicate Takeable(leases: map<string, Lease>, name: string, owner: Owner, now: Time)
  {
    name in leases ==> leases[name].expiresAt < now || leases[name].owner == owner
  }

  class LeaseTable {
    var leases: map<string, Lease>

    constructor ()
      ensures leases == map[]
    {
      leases := map[];
    }

    // try_acquire_scheduler_lease
    method TryAcquire(name: string, owner: Owner, leaseMs: nat, now: Time) returns (acquired: bool)
      modifies this
      ensures acquired <==> name !in old(leases) || old(leases)[name].expiresAt < now || old(leases)[name].owner == owner
      ensures leases == if acquired then old(leases)[name := Lease(owner, now + RunTable.LeaseFor(leaseMs))] else old(leases)
    {
      var granted := Lease(owner, now + RunTable.LeaseFor(leaseMs));
      if name !in leases {
        leases := leases[name := granted];
        return true;
      }
      var current := leases[name];
      acquired := current.expiresAt < now || current.owner == owner;
      if acquired {
        leases := leases[name := granted];
      }
    }
  }

  predicate Enabled(s: State, step: Step)
  {
    step.Tick? ==> s.now <= step.to
  }

  function Apply(s: State, step: Step): State
  {
    match step
    case Tick(to) => s.(now := to)
    case Acquire(name, owner, leaseMs) =>
      if Takeable(s.leases, name, owner, s.now) then
        var until := s.now + RunTable.LeaseFor(leaseMs);
        s.(leases := s.leases[name := Lease(owner, until)], grants := s.grants + [Grant(name, owner, s.now, until)])
      else s
  }

  predicate Init(s: State)
  {
    s.leases == map[] && s.grants == []
  }

  ghost predicate Execution(states: seq<State>, steps: seq<Step>)
  {
    && |states| == |steps| + 1 && Init(states[0])
    && forall i :: 0 <= i < |steps| ==> Enabled(states[i], steps[i]) && states[i + 1] == Apply(states[i], steps[i])
  }

  // The last grant of a name before position `n`, or -1.
  function LastGrant(grants: seq<Grant>, name: string, n: nat): (r: int)
    requires n <= |grants|
    ensures -1 <= r < n
    ensures r >= 0 ==> grants[r].name == name
    ensures forall i :: r < i < n ==> grants[i].name != name
  {
    if n == 0 then -1 else if grants[n - 1].name == name then n - 1 else LastGrant(grants, name, n - 1)
  }

  // A grant to another owner comes strictly after the expiry of the name's most recent grant.
  predicate HandoverOk(grants: seq<Grant>, i: nat)
    requires i < |grants|
  {
    var prev := LastGrant(grants, grants[i].name, i);
    prev >= 0 ==> grants[prev].owner == grants[i].owner || grants[prev].expiresAt < grants[i].at
  }

  predicate InTimeOrder(grants: seq<Grant>)
  {
    forall i, j :: 0 <= i <= j < |grants| ==> grants[i].at <= grants[j].at
  }

  ghost predicate Inv(s: State)
  {
    && InTimeOrder(s.grants)
    && (forall i :: 0 <= i < |s.grants| ==> s.grants[i].at <= s.now && HandoverOk(s.grants, i))
    && (forall name :: TableAgrees(s, name))
  }

  predicate TableAgrees(s: State, name: string)
  {
    var last := LastGrant(s.grants, name, |s.grants|);
    if last < 0 then name !in s.leases
    else name in s.leases && s.leases[name] == Lease(s.grants[last].owner, s.grants[last].expiresAt)
  }

  lemma {:induction false} LastGrantPrefix(grants: seq<Grant>, g: Grant, name: string, n: nat)
    requires n <= |grants|
    ensures LastGrant(grants + [g], name, n) == LastGrant(grants, name, n)
  {
    if n > 0 {
      LastGrantPrefix(grants, g, name, n - 1);
    }
  }

  lemma {:induction false} HandoverKept(grants: seq<Grant>, g: Grant, i: nat)
    requires i < |grants| && HandoverOk(grants, i)
    ensures HandoverOk(grants + [g], i)
  {
    LastGrantPrefix(grants, g, grants[i].name, i);
  }

  lemma {:induction false} NewHandover(s: State, g: Grant)
    requires TableAgrees(s, g.name) && Takeable(s.leases, g.name, g.owner, g.at)
    ensures HandoverOk(s.grants + [g], |s.grants|)
  {
    LastGrantPrefix(s.grants, g, g.name, |s.grants|);
  }

  lemma {:induction false} TableKept(s: State, s': State, g: Grant, name: string)
    requires TableAgrees(s, name) && s'.grants == s.grants + [g]
    requires s'.leases == s.leases[g.name := Lease(g.owner, g.expiresAt)]
    ensures TableAgrees(s', name)
  {
    LastGrantPrefix(s.grants, g, name, |s.grants|);
  }

  lemma {:induction false} InvStep(s: State, step: Step)
    requires Enabled(s, step) && Inv(s)
    ensures Inv(Apply(s, step))
  {
    hide HandoverOk;
    hide TableAgrees;
    var s' := Apply(s, step);
    if step.Acquire? && Takeable(s.leases, step.name, step.owner, s.now) {
      var g := Grant(step.name, step.owner, s.now, s.now + RunTable.LeaseFor(step.leaseMs));
      NewHandover(s, g);
      forall i | 0 <= i < |s.grants|
        ensures HandoverOk(s'.grants, i)
      {
        HandoverKept(s.grants, g, i);
      }
      forall name
        ensures TableAgrees(s', name)
      {
        TableKept(s, s', g, name);
      }
    } else {
      forall name
        ensures TableAgrees(s', name)
      {
        TableClock(s, s', name);
      }
    }
  }

  lemma {:induction false} TableClock(s: State, s': State, name: string)
    requires TableAgrees(s, name) && s'.grants == s.grants && s'.leases == s.leases
    ensures TableAgrees(s', name)
  {
  }

  /** On every run, a different owner is granted a name only strictly after the most recent grant expired. */
  lemma {:induction false} HandoverHolds(states: seq<State>, steps: seq<Step>, i: nat)
    requires Execution(states, steps) && i < |states|
    ensures Inv(states[i])
  {
    if i > 0 {
      HandoverHolds(states, steps, i - 1);
      InvStep(states[i - 1], steps[i - 1]);
    }
  }

  // What an owner may conclude at an instant from its own grants alone: its latest one is unexpired.
  predicate BelievesHolding(grants: seq<Grant>, name: string, owner: Owner, i: nat, instant: Time)
  {
    && i < |grants| && grants[i].name == name && grants[i].owner == owner
    && grants[i].at <= instant <= grants[i].expiresAt
    && forall k :: i < k < |grants| && grants[k].name == name && grants[k].owner == owner ==> instant < grants[k].at
  }

  // Between a grant and a later one of another owner, some grant of the name was first to change owner.
  lemma {:induction false} OwnerChange(grants: seq<Grant>, name: string, i: nat, j: nat) returns (k: nat)
    requires i < j < |grants| && grants[i].name == grants[j].name == name && grants[i].owner != grants[j].owner
    ensures i < k <= j && grants[k].name == name && grants[k].owner != grants[i].owner
    ensures i <= LastGrant(grants, name, k) && grants[LastGrant(grants, name, k)].owner == grants[i].owner
    decreases j
  {
    var prev := LastGrant(grants, name, j);
    if grants[prev].owner == grants[i].owner {
      k := j;
    } else {
      k := OwnerChange(grants, name, i, prev);
    }
  }

  // While an owner believes it holds the name, any later grant to another owner is still in the future.
  lemma {:induction false} LaterOwnerIsFuture(grants: seq<Grant>, name: string, a: Owner, i: nat, j: nat, instant: Time)
    requires InTimeOrder(grants) && forall k :: 0 <= k < |grants| ==> HandoverOk(grants, k)
    requires i < j < |grants| && BelievesHolding(grants, name, a, i, instant)
    requires grants[j].name == name && grants[j].owner != a
    ensures instant < grants[j].at
  {
    hide LastGrant;
    var k := OwnerChange(grants, name, i, j);
    var prev := LastGrant(grants, name, k);
    assert HandoverOk(grants, k);
    assert grants[prev].at <= grants[k].at <= grants[j].at;
  }

  lemma {:induction false} BeliefsAgree(grants: seq<Grant>, name: string, a: Owner, b: Owner, i: nat, j: nat, instant: Time)
    requires InTimeOrder(grants) && forall k :: 0 <= k < |grants| ==> HandoverOk(grants, k)
    requires i <= j && BelievesHolding(grants, name, a, i, instant) && BelievesHolding(grants, name, b, j, instant)
    ensures a == b
  {
    hide HandoverOk;
    if i < j && grants[j].owner != a {
      LaterOwnerIsFuture(grants, name, a, i, j, instant);
    }
  }

  /** Two different owners never both hold an unexpired grant of one name at one instant. */
  lemma {:induction false} MutualExclusion(states: seq<State>, steps: seq<Step>, n: nat, name: string,
                        a: Owner, b: Owner, i: nat, j: nat, instant: Time)
    requires Execution(states, steps) && n < |states|
    requires BelievesHolding(states[n].grants, name, a, i, instant)
    requires BelievesHolding(states[n].grants, name, b, j, instant)
    ensures a == b
  {
    HandoverHolds(states, steps, n);
    hide HandoverOk;
    hide TableAgrees;
    hide Execution;
    hide BelievesHolding;
    hide InTimeOrder;
    if i <= j {
      BeliefsAgree(states[n].grants, name, a, b, i, j, instant);
    } else {
      BeliefsAgree(states[n].grants, name, b, a, j, i, instant);
    }
  }
}
