// Memory compaction: stamp the old records of a group, then write one compaction record listing them.
module MemoryCompaction {
  import opened Prelude

  type MemoryId = nat
  // tenant, agent, memory kind and scope
  type Group = (string, string, string, string)

  datatype Memory = Memory(group: Group, createdAt: Time, expiresAt: Option<Time>, compactedAt: Option<Time>)
  type Table = map<MemoryId, Memory>

  datatype Candidate = Candidate(group: Group, ids: set<MemoryId>)
  datatype Compaction = Compaction(group: Group, ids: set<MemoryId>)

  predicate Eligible(m: Memory, cutoff: Time, now: Time)
  {
    m.compactedAt.None? && (m.expiresAt.None? || m.expiresAt.value > now) && m.createdAt <= cutoff
  }

  function Members(table: Table, g: Group, cutoff: Time, now: Time): set<MemoryId>
  {
    set id | id in table && table[id].group == g && Eligible(table[id], cutoff, now)
  }

  function QualifyingGroups(table: Table, cutoff: Time, now: Time, minRecords: int): set<Group>
  {
    set id | id in table && |Members(table, table[id].group, cutoff, now)| >= minRecords :: table[id].group
  }

  // The candidate query: each qualifying group once, with all its eligible records, up to the limit.
  predicate CandidateGroups(table: Table, cutoff: Time, now: Time, minRecords: int, maxGroups: int, cands: seq<Candidate>)
  {
    && |cands| == Min(Max(maxGroups, 1), |QualifyingGroups(table, cutoff, now, Max(minRecords, 2))|)
    && (forall i :: 0 <= i < |cands| ==>
          && cands[i].ids == Members(table, cands[i].group, cutoff, now)
          && |cands[i].ids| >= Max(minRecords, 2))
    && (forall i, j :: 0 <= i < j < |cands| ==> cands[i].group != cands[j].group)
  }

  // UPDATE ... WHERE id = ANY(ids) AND compacted_at IS NULL RETURNING id
  function Unstamped(table: Table, ids: set<MemoryId>): set<MemoryId>
  {
    set id | id in ids && id in table && table[id].compactedAt.None?
  }

  function Stamp(table: Table, ids: set<MemoryId>, now: Time): Table
  {
    map id | id in table :: if id in ids then table[id].(compactedAt := Some(now)) else table[id]
  }

  function IdsOf(cands: seq<Candidate>): set<MemoryId>
  {
    if cands == [] then {} else IdsOf(cands[..|cands| - 1]) + cands[|cands| - 1].ids
  }

  function RecordsFor(cands: seq<Candidate>): (r: seq<Compaction>)
    ensures |r| == |cands| && forall i :: 0 <= i < |cands| ==> r[i] == Compaction(cands[i].group, cands[i].ids)
  {
    seq(|cands|, i requires 0 <= i < |cands| => Compaction(cands[i].group, cands[i].ids))
  }

  lemma {:induction false} InSomeCandidate(cands: seq<Candidate>, id: MemoryId)
    ensures id in IdsOf(cands) <==> exists i :: 0 <= i < |cands| && id in cands[i].ids
  {
    if cands != [] {
      var n := |cands| - 1;
      InSomeCandidate(cands[..n], id);
      if i :| 0 <= i < |cands| && id in cands[i].ids {
        if i < n {
          assert id in cands[..n][i].ids;
        }
      }
    }
  }

  datatype Progress = Progress(table: Table, compactions: seq<Compaction>, groups: nat, total: nat)

  // The first i candidates have been stamped, recorded and counted.
  ghost predicate Compacted(before: Progress, p: Progress, cands: seq<Candidate>, i: int, now: Time)
  {
    && 0 <= i <= |cands|
    && p.table == Stamp(before.table, IdsOf(cands[..i]), now)
    && p.compactions == before.compactions + RecordsFor(cands[..i])
    && p.groups == i && p.total == |IdsOf(cands[..i])|
  }

  lemma {:induction false} CompactedNone(table: Table, compactions: seq<Compaction>, cands: seq<Candidate>, now: Time)
    ensures Compacted(Progress(table, compactions, 0, 0), Progress(table, compactions, 0, 0), cands, 0, now)
  {
    StampNothing(table, now);
    assert RecordsFor(cands[..0]) == [];
  }

  lemma {:induction false} CompactedAll(before: Progress, p: Progress, cands: seq<Candidate>, now: Time)
    requires Compacted(before, p, cands, |cands|, now)
    ensures p.table == Stamp(before.table, IdsOf(cands), now)
    ensures p.compactions == before.compactions + RecordsFor(cands)
    ensures p.groups == |cands| && p.total == |IdsOf(cands)|
  {
    assert cands[..|cands|] == cands;
  }

  lemma {:induction false} CompactedOneMore(before: Progress, p: Progress, cands: seq<Candidate>, i: nat,
                         cutoff: Time, now: Time, minRecords: int, maxGroups: int)
    requires Compacted(before, p, cands, i, now) && i < |cands|
    requires CandidateGroups(before.table, cutoff, now, minRecords, maxGroups, cands)
    ensures |cands[i].ids| >= Max(minRecords, 2) >= 2 && Unstamped(p.table, cands[i].ids) == cands[i].ids
    ensures Compacted(before,
                      Progress(Stamp(p.table, cands[i].ids, now),
                               p.compactions + [Compaction(cands[i].group, cands[i].ids)],
                               p.groups + 1, p.total + |cands[i].ids|), cands, i + 1, now)
  {
    NextGroupUntouched(before.table, cutoff, now, minRecords, maxGroups, cands, i);
    PrefixGrows(cands, i);
    hide *;
  }

  lemma {:induction false} PrefixGrows(cands: seq<Candidate>, i: nat)
    requires i < |cands|
    ensures IdsOf(cands[..i + 1]) == IdsOf(cands[..i]) + cands[i].ids
    ensures RecordsFor(cands[..i + 1]) == RecordsFor(cands[..i]) + [Compaction(cands[i].group, cands[i].ids)]
  {
    assert cands[..i + 1][..i] == cands[..i];
  }

  lemma {:induction false} StampNothing(table: Table, now: Time)
    ensures Stamp(table, {}, now) == table
  {
  }

  lemma {:induction false} StampTwice(table: Table, a: set<MemoryId>, b: set<MemoryId>, now: Time)
    ensures Stamp(Stamp(table, a, now), b, now) == Stamp(table, a + b, now)
  {
  }

  lemma {:induction false} CandidatesUnstamped(table: Table, cutoff: Time, now: Time, minRecords: int, maxGroups: int, cands: seq<Candidate>)
    requires CandidateGroups(table, cutoff, now, minRecords, maxGroups, cands)
    ensures Unstamped(table, IdsOf(cands)) == IdsOf(cands)
  {
    forall id | id in IdsOf(cands)
      ensures id in table && table[id].compactedAt.None?
    {
      InSomeCandidate(cands, id);
    }
  }

  /** The candidate groups share no record. */
  lemma {:induction false} GroupsDisjoint(table: Table, cutoff: Time, now: Time, minRecords: int, maxGroups: int, cands: seq<Candidate>)
    requires CandidateGroups(table, cutoff, now, minRecords, maxGroups, cands)
    ensures forall i, j :: 0 <= i < j < |cands| ==> cands[i].ids !! cands[j].ids
  {
    forall i, j | 0 <= i < j < |cands|
      ensures cands[i].ids !! cands[j].ids
    {
      assert forall id :: id in cands[i].ids ==> table[id].group == cands[i].group;
      assert forall id :: id in cands[j].ids ==> table[id].group == cands[j].group;
    }
  }

  /** Every record stamped by an undisturbed compaction is listed in exactly one of the new compaction records. */
  lemma {:induction false} StampedListedOnce(table: Table, cutoff: Time, now: Time, minRecords: int, maxGroups: int, cands: seq<Candidate>,
                          id: MemoryId)
    requires CandidateGroups(table, cutoff, now, minRecords, maxGroups, cands) && id in table
    ensures Stamp(table, IdsOf(cands), now)[id] != table[id] <==>
            exists i :: 0 <= i < |cands| && id in RecordsFor(cands)[i].ids
    ensures forall i, j :: 0 <= i < j < |cands| ==> RecordsFor(cands)[i].ids !! RecordsFor(cands)[j].ids
    ensures Stamp(table, IdsOf(cands), now)[id] ==
            if id in IdsOf(cands) then table[id].(compactedAt := Some(now)) else table[id]
  {
    GroupsDisjoint(table, cutoff, now, minRecords, maxGroups, cands);
    CandidatesUnstamped(table, cutoff, now, minRecords, maxGroups, cands);
    InSomeCandidate(cands, id);
    if i :| 0 <= i < |cands| && id in cands[i].ids {
      assert id in RecordsFor(cands)[i].ids;
    }
  }

  // Uncompacted, unexpired, and old enough.
  predicate Ripe(m: Memory, cutoff: Time, now: Time)
  {
    m.compactedAt.None? && (m.expiresAt.Some? ==> now < m.expiresAt.value) && m.createdAt <= cutoff
  }

  function RipeIn(table: Table, g: Group, cutoff: Time, now: Time): set<MemoryId>
  {
    set id | id in table && table[id].group == g && Ripe(table[id], cutoff, now)
  }

  /** What an undisturbed compaction takes: only ripe records, whole groups of at least max(min_records, 2) of
      them, at most max(max_groups, 1) groups, and every such group if there are not more. */
  lemma {:induction false} CandidatesExactly(table: Table, cutoff: Time, now: Time, minRecords: int, maxGroups: int, cands: seq<Candidate>,
                          id: MemoryId)
    requires CandidateGroups(table, cutoff, now, minRecords, maxGroups, cands) && id in table
    ensures |cands| <= (if maxGroups < 1 then 1 else maxGroups)
    ensures id in IdsOf(cands) ==> Ripe(table[id], cutoff, now)
    ensures id in IdsOf(cands) ==> |RipeIn(table, table[id].group, cutoff, now)| >= (if minRecords < 2 then 2 else minRecords)
    ensures id in IdsOf(cands) ==> RipeIn(table, table[id].group, cutoff, now) <= IdsOf(cands)
    ensures && |cands| < (if maxGroups < 1 then 1 else maxGroups) && Ripe(table[id], cutoff, now)
            && |RipeIn(table, table[id].group, cutoff, now)| >= (if minRecords < 2 then 2 else minRecords)
            ==> id in IdsOf(cands)
  {
    var g := table[id].group;
    assert Members(table, g, cutoff, now) == RipeIn(table, g, cutoff, now);
    InSomeCandidate(cands, id);
    if i :| 0 <= i < |cands| && id in cands[i].ids {
      forall x | x in cands[i].ids
        ensures x in IdsOf(cands)
      {
        InSomeCandidate(cands, x);
      }
    }
    var least := Max(minRecords, 2);
    var all := QualifyingGroups(table, cutoff, now, least);
    var taken := set i | 0 <= i < |cands| :: cands[i].group;
    AllGroupsTaken(table, cutoff, now, minRecords, maxGroups, cands);
    if |cands| < Max(maxGroups, 1) && Ripe(table[id], cutoff, now) && |RipeIn(table, g, cutoff, now)| >= least {
      assert g in all;
      var i :| 0 <= i < |cands| && cands[i].group == g;
    }
  }

  lemma {:induction false} DistinctGroups(cands: seq<Candidate>)
    requires forall i, j :: 0 <= i < j < |cands| ==> cands[i].group != cands[j].group
    ensures |set i | 0 <= i < |cands| :: cands[i].group| == |cands|
  {
    if cands != [] {
      var n := |cands| - 1;
      DistinctGroups(cands[..n]);
      var before := set i | 0 <= i < n :: cands[..n][i].group;
      assert (set i | 0 <= i < |cands| :: cands[i].group) == before + {cands[n].group} by {
        assert forall i :: 0 <= i < n ==> cands[..n][i] == cands[i];
      }
    }
  }

  // When the limit does not bind, every qualifying group is a candidate.
  lemma {:induction false} AllGroupsTaken(table: Table, cutoff: Time, now: Time, minRecords: int, maxGroups: int, cands: seq<Candidate>)
    requires CandidateGroups(table, cutoff, now, minRecords, maxGroups, cands)
    ensures |cands| < Max(maxGroups, 1) ==>
              forall g :: g in QualifyingGroups(table, cutoff, now, Max(minRecords, 2)) ==>
                exists i :: 0 <= i < |cands| && cands[i].group == g
  {
    var all := QualifyingGroups(table, cutoff, now, Max(minRecords, 2));
    var taken := set i | 0 <= i < |cands| :: cands[i].group;
    DistinctGroups(cands);
    forall i | 0 <= i < |cands|
      ensures cands[i].group in all
    {
      assert |cands[i].ids| >= 2;
      assert cands[i].ids != {};
      var id :| id in cands[i].ids;
    }
    if |cands| < Max(maxGroups, 1) {
      SubsetSameSize(taken, all);
    }
  }

  // When its turn comes, a group is still wholly unstamped.
  lemma {:induction false} NextGroupUntouched(table: Table, cutoff: Time, now: Time, minRecords: int, maxGroups: int,
                           cands: seq<Candidate>, i: nat)
    requires CandidateGroups(table, cutoff, now, minRecords, maxGroups, cands) && i < |cands|
    ensures |cands[i].ids| >= Max(minRecords, 2) >= 2
    ensures IdsOf(cands[..i]) !! cands[i].ids
    ensures Unstamped(Stamp(table, IdsOf(cands[..i]), now), cands[i].ids) == cands[i].ids
    ensures Stamp(Stamp(table, IdsOf(cands[..i]), now), cands[i].ids, now) ==
            Stamp(table, IdsOf(cands[..i]) + cands[i].ids, now)
  {
    GroupsDisjoint(table, cutoff, now, minRecords, maxGroups, cands);
    forall id | id in cands[i].ids
      ensures id !in IdsOf(cands[..i])
    {
      InSomeCandidate(cands[..i], id);
    }
    StampTwice(table, IdsOf(cands[..i]), cands[i].ids, now);
  }

  class Store {
    var table: Table
    var compactions: seq<Compaction>

    constructor ()
      ensures table == map[] && compactions == []
    {
      table, compactions := map[], [];
    }

    // One iteration of the loop over candidates; zero when the group is not recorded.
    method CompactGroup(c: Candidate, least: int, now: Time) returns (count: nat)
      requires least >= 2
      modifies this
      ensures var updated := Unstamped(old(table), c.ids);
              && table == (if |c.ids| < least then old(table) else Stamp(old(table), updated, now))
              && (if |c.ids| < least || |updated| < least then compactions == old(compactions) && count == 0
                  else compactions == old(compactions) + [Compaction(c.group, updated)] && count == |updated|)
    {
      count := 0;
      if |c.ids| < least {
        return;
      }
      var updated := Unstamped(table, c.ids);
      table := Stamp(table, updated, now);
      if updated == {} || |updated| < least {
        return;
      }
      compactions := compactions + [Compaction(c.group, updated)];
      count := |updated|;
    }

    /** compact_memory_records without interference: exactly the candidate records are stamped, each is
        listed in exactly one new compaction record, and the reported totals are their numbers. */
    method Compact(cands: seq<Candidate>, cutoff: Time, now: Time, minRecords: int, maxGroups: int)
      returns (groups: nat, total: nat)
      requires CandidateGroups(table, cutoff, now, minRecords, maxGroups, cands)
      modifies this
      ensures table == Stamp(old(table), IdsOf(cands), now)
      ensures Unstamped(old(table), IdsOf(cands)) == IdsOf(cands)
      ensures compactions == old(compactions) + RecordsFor(cands)
      ensures groups == |cands| && total == |IdsOf(cands)|
    {
      hide *;
      groups, total := 0, 0;
      CandidatesUnstamped(table, cutoff, now, minRecords, maxGroups, cands);
      CompactedNone(table, compactions, cands, now);
      ghost var before := Progress(table, compactions, 0, 0);
      for i := 0 to |cands|
        invariant Compacted(before, Progress(table, compactions, groups, total), cands, i, now)
      {
        CompactedOneMore(before, Progress(table, compactions, groups, total), cands, i, cutoff, now, minRecords, maxGroups);
        var count := CompactGroup(cands[i], Max(minRecords, 2), now);
        if count > 0 {
          groups := groups + 1;
          total := total + count;
        }
      }
      CompactedAll(before, Progress(table, compactions, groups, total), cands, now);
    }
  }

  // ---------------------------------------------------------------------------------------------
  // Interleaved compactors
  // ---------------------------------------------------------------------------------------------

  // A compactor between statements: with groups still to process, or with a stamped group to record.
  datatype Compactor =
    | Idle
    | Working(least: int, todo: seq<Candidate>)
    | Recording(least: int, ready: Compaction, todo: seq<Candidate>)

  datatype State = State(now: Time, table: Table, compactions: seq<Compaction>, procs: map<nat, Compactor>, used: set<MemoryId>)

  datatype Step =
    | Tick(to: Time)
    | Insert(id: MemoryId, row: Memory)
    | Purge(ids: set<MemoryId>)
    | Begin(p: nat, least: int, cands: seq<Candidate>)
    | StampNext(p: nat)
    | WriteRecord(p: nat)
    | Stop(p: nat)

  function ProcOf(s: State, p: nat): Compactor
  {
    if p in s.procs then s.procs[p] else Idle
  }

  // Candidate lists may be outdated in any way; record ids are never reused.
  predicate Enabled(s: State, step: Step)
  {
    match step
    case Tick(to) => s.now <= to
    case Insert(id, row) => id !in s.used && row.compactedAt.None?
    case Purge(ids) => true
    case Begin(p, least, cands) => ProcOf(s, p).Idle? && least >= 2
    case StampNext(p) => ProcOf(s, p).Working?
    case WriteRecord(p) => ProcOf(s, p).Recording?
    case Stop(p) => true
  }

  function Apply(s: State, step: Step): State
    requires Enabled(s, step)
  {
    match step
    case Tick(to) => s.(now := to)
    case Insert(id, row) => s.(table := s.table[id := row], used := s.used + {id})
    case Purge(ids) => s.(table := s.table - ids)
    case Begin(p, least, cands) => s.(procs := s.procs[p := Working(least, cands)])
    case StampNext(p) => StampGroup(s, p)
    case WriteRecord(p) =>
      var c := ProcOf(s, p);
      s.(compactions := s.compactions + [c.ready], procs := s.procs[p := Working(c.least, c.todo)])
    case Stop(p) => s.(procs := s.procs[p := Idle])
  }

  function StampGroup(s: State, p: nat): State
    requires ProcOf(s, p).Working?
  {
    var c := ProcOf(s, p);
    if c.todo == [] then s.(procs := s.procs[p := Idle])
    else
      var group, rest := c.todo[0], c.todo[1..];
      var updated := Unstamped(s.table, group.ids);
      var stamped := s.(table := Stamp(s.table, updated, s.now));
      if |group.ids| < c.least then s.(procs := s.procs[p := Working(c.least, rest)])
      else if |updated| < c.least then stamped.(procs := s.procs[p := Working(c.least, rest)])
      else stamped.(procs := s.procs[p := Recording(c.least, Compaction(group.group, updated), rest)])
  }

  ghost predicate Execution(states: seq<State>, steps: seq<Step>)
  {
    && |states| == |steps| + 1
    && states[0].table == map[] && states[0].compactions == [] && states[0].procs == map[] && states[0].used == {}
    && forall i :: 0 <= i < |steps| ==> StepTaken(states[i], steps[i], states[i + 1])
  }

  ghost predicate StepTaken(s: State, step: Step, s': State)
  {
    Enabled(s, step) && s' == Apply(s, step)
  }

  // The record is spoken for: nothing can stamp it again.
  predicate Taken(s: State, id: MemoryId)
  {
    id in s.used && (id in s.table ==> s.table[id].compactedAt.Some?)
  }

  function Ready(s: State, p: nat): set<MemoryId>
  {
    if ProcOf(s, p).Recording? then ProcOf(s, p).ready.ids else {}
  }

  // Written lists and lists about to be written are pairwise disjoint and hold only taken records.
  ghost predicate Inv(s: State)
  {
    && (forall id :: id in s.table ==> id in s.used)
    && (forall i, id :: 0 <= i < |s.compactions| && id in s.compactions[i].ids ==> Taken(s, id))
    && (forall p, id :: id in Ready(s, p) ==> Taken(s, id))
    && (forall i, j :: 0 <= i < j < |s.compactions| ==> s.compactions[i].ids !! s.compactions[j].ids)
    && (forall i, p :: 0 <= i < |s.compactions| ==> s.compactions[i].ids !! Ready(s, p))
    && (forall p, q :: p != q ==> Ready(s, p) !! Ready(s, q))
  }

  lemma {:induction false} TakenStays(s: State, step: Step, id: MemoryId)
    requires Enabled(s, step) && Taken(s, id)
    ensures Taken(Apply(s, step), id)
  {
  }

  lemma {:induction false} ReadyOthers(s: State, step: Step, p: nat)
    requires Enabled(s, step)
    ensures Ready(Apply(s, step), p) == Ready(s, p) || Ready(Apply(s, step), p) == {} ||
            (step == StampNext(p) && Ready(s, p) == {} &&
             forall id :: id in Ready(Apply(s, step), p) ==> id in s.table && s.table[id].compactedAt.None?)
  {
  }

  lemma {:induction false} FreshReadyTaken(s: State, p: nat, id: MemoryId)
    requires Enabled(s, StampNext(p)) && (forall x :: x in s.table ==> x in s.used)
    requires id in Ready(Apply(s, StampNext(p)), p)
    ensures Taken(Apply(s, StampNext(p)), id)
  {
  }

  lemma {:induction false} InvStep(s: State, step: Step)
    requires Enabled(s, step) && Inv(s)
    ensures Inv(Apply(s, step))
  {
    var s' := Apply(s, step);
    assert forall id :: id in s'.table ==> id in s'.used;
    forall p
      ensures forall id :: id in Ready(s', p) ==> Taken(s', id)
    {
      ReadyOthers(s, step, p);
      forall id | id in Ready(s', p)
        ensures Taken(s', id)
      {
        if id in Ready(s, p) {
          TakenStays(s, step, id);
        } else {
          FreshReadyTaken(s, p, id);
        }
      }
    }
    forall id | Taken(s, id)
      ensures Taken(s', id)
    {
      TakenStays(s, step, id);
    }
    ReadyDisjoint(s, step);
    if step.WriteRecord? {
      assert s'.compactions[|s.compactions|].ids == Ready(s, step.p);
    }
  }

  lemma {:induction false} ReadyDisjoint(s: State, step: Step)
    requires Enabled(s, step) && Inv(s)
    ensures var s' := Apply(s, step);
            && (forall p, q :: p != q ==> Ready(s', p) !! Ready(s', q))
            && (forall i, p :: 0 <= i < |s.compactions| ==> s.compactions[i].ids !! Ready(s', p))
            && (step.WriteRecord? ==> forall p :: Ready(s, step.p) !! Ready(s', p))
  {
    hide Apply;
    hide Enabled;
    var s' := Apply(s, step);
    forall p
      ensures forall id :: id in Ready(s', p) ==> id in Ready(s, p) || (step == StampNext(p) && !Taken(s, id))
    {
      ReadyOthers(s, step, p);
    }
    if step.WriteRecord? {
      RecordingEnds(s, step.p);
    }
  }

  lemma {:induction false} RecordingEnds(s: State, p: nat)
    requires Enabled(s, WriteRecord(p))
    ensures Ready(Apply(s, WriteRecord(p)), p) == {}
  {
  }

  lemma {:induction false} InvHolds(states: seq<State>, steps: seq<Step>, i: nat)
    requires Execution(states, steps) && i < |states|
    ensures Inv(states[i])
  {
    hide Enabled;
    hide Apply;
    if i > 0 {
      InvHolds(states, steps, i - 1);
      assert StepTaken(states[i - 1], steps[i - 1], states[i - 1 + 1]);
      InvStep(states[i - 1], steps[i - 1]);
    }
  }

  /** Over any interleaving of compactors no memory record is listed in two compaction records. */
  lemma {:induction false} ListedAtMostOnce(states: seq<State>, steps: seq<Step>, n: nat, i: nat, j: nat, id: MemoryId)
    requires Execution(states, steps) && n < |states|
    requires i < |states[n].compactions| && j < |states[n].compactions|
    requires id in states[n].compactions[i].ids && id in states[n].compactions[j].ids
    ensures i == j
  {
    InvHolds(states, steps, n);
  }

  // Stamped, but neither listed nor about to be.
  ghost predicate Orphan(s: State, id: MemoryId)
  {
    && Taken(s, id) && (forall i :: 0 <= i < |s.compactions| ==> id !in s.compactions[i].ids)
    && forall p :: id !in Ready(s, p)
  }

  /** Once stamped without being recorded, a memory record is never listed in any later state. */
  lemma {:induction false} OrphanForever(states: seq<State>, steps: seq<Step>, i: nat, j: nat, id: MemoryId)
    requires Execution(states, steps) && i <= j < |states| && Orphan(states[i], id)
    ensures Orphan(states[j], id)
    decreases j
  {
    hide Enabled;
    hide Apply;
    if i < j {
      OrphanForever(states, steps, i, j - 1, id);
      assert StepTaken(states[j - 1], steps[j - 1], states[j - 1 + 1]);
      OrphanStep(states[j - 1], steps[j - 1], id);
    }
  }

  lemma {:induction false} OrphanStep(s: State, step: Step, id: MemoryId)
    requires Enabled(s, step) && Orphan(s, id)
    ensures Orphan(Apply(s, step), id)
  {
    var s' := Apply(s, step);
    TakenStays(s, step, id);
    forall p
      ensures id !in Ready(s', p)
    {
      ReadyOthers(s, step, p);
    }
    if step.WriteRecord? {
      assert id !in Ready(s, step.p);
    }
  }

  /** An interleaved compactor does create such records: exactly when others have already stamped all but
      a few of its group. */
  lemma {:induction false} ShortGroupIsOrphaned(s: State, p: nat, id: MemoryId)
    requires Inv(s) && ProcOf(s, p).Working? && ProcOf(s, p).todo != []
    requires |ProcOf(s, p).todo[0].ids| >= ProcOf(s, p).least
    requires id in Unstamped(s.table, ProcOf(s, p).todo[0].ids)
    ensures Orphan(Apply(s, StampNext(p)), id) <==> |Unstamped(s.table, ProcOf(s, p).todo[0].ids)| < ProcOf(s, p).least
  {
    var s' := Apply(s, StampNext(p));
    forall q
      ensures q != p ==> Ready(s', q) == Ready(s, q)
    {
    }
    assert !Taken(s, id);
    if |Unstamped(s.table, ProcOf(s, p).todo[0].ids)| >= ProcOf(s, p).least {
      assert id in Ready(s', p);
    }
  }

  // ---------------------------------------------------------------------------------------------
  // An interleaving that orphans a record
  // ---------------------------------------------------------------------------------------------

  const GROUP: Group := ("tenant", "agent", "session", "scope")
  const NOTE := Memory(GROUP, 0, None, None)
  const STAMPED := Memory(GROUP, 0, None, Some(0))
  const PAIR := Candidate(GROUP, {0, 1})
  const TRIPLE := Candidate(GROUP, {0, 1, 2})

  function Rows(a: Memory, b: Memory): Table
  {
    map[0 := a, 1 := b]
  }

  lemma {:induction false} PairIsCandidate()
    ensures CandidateGroups(Rows(NOTE, NOTE), 0, 0, 2, 1, [PAIR])
  {
    assert Members(Rows(NOTE, NOTE), GROUP, 0, 0) == {0, 1};
    assert QualifyingGroups(Rows(NOTE, NOTE), 0, 0, 2) == {GROUP};
  }

  lemma {:induction false} TripleIsCandidate()
    ensures CandidateGroups(Rows(NOTE, NOTE)[2 := NOTE], 0, 0, 2, 1, [TRIPLE])
  {
    var table := Rows(NOTE, NOTE)[2 := NOTE];
    assert Members(table, GROUP, 0, 0) == {0, 1, 2};
    assert QualifyingGroups(table, 0, 0, 2) == {GROUP};
  }

  // Two records; the first compactor starts; a third record; the second compactor starts; the first stamps its
  // two records; the second stamps the third.
  function Scene(i: nat): State
    requires i <= 7
  {
    var one := map[0 := Working(2, [PAIR])];
    var recording := map[0 := Recording(2, Compaction(GROUP, {0, 1}), [])];
    if i == 0 then State(0, map[], [], map[], {})
    else if i == 1 then State(0, map[0 := NOTE], [], map[], {0})
    else if i == 2 then State(0, Rows(NOTE, NOTE), [], map[], {0, 1})
    else if i == 3 then State(0, Rows(NOTE, NOTE), [], one, {0, 1})
    else if i == 4 then State(0, Rows(NOTE, NOTE)[2 := NOTE], [], one, {0, 1, 2})
    else if i == 5 then State(0, Rows(NOTE, NOTE)[2 := NOTE], [], one[1 := Working(2, [TRIPLE])], {0, 1, 2})
    else if i == 6 then State(0, Rows(STAMPED, STAMPED)[2 := NOTE], [], recording[1 := Working(2, [TRIPLE])], {0, 1, 2})
    else State(0, Rows(STAMPED, STAMPED)[2 := STAMPED], [], recording[1 := Working(2, [])], {0, 1, 2})
  }

  lemma {:induction false} FirstStamp()
    ensures StepTaken(Scene(5), StampNext(0), Scene(6))
  {
    var s := Scene(5);
    assert Unstamped(s.table, {0, 1}) == {0, 1};
    assert Stamp(s.table, {0, 1}, 0) == Scene(6).table;
    assert [PAIR][1..] == [];
    assert Apply(s, StampNext(0)).procs == Scene(6).procs;
  }

  lemma {:induction false} SecondStamp()
    ensures StepTaken(Scene(6), StampNext(1), Scene(7))
  {
    var s := Scene(6);
    assert Unstamped(s.table, {0, 1, 2}) == {2};
    assert Stamp(s.table, {2}, 0) == Scene(7).table;
    assert [TRIPLE][1..] == [];
    assert Apply(s, StampNext(1)).procs == Scene(7).procs;
  }

  lemma {:induction false} ThirdIsOrphan()
    ensures Orphan(Scene(7), 2)
  {
    assert forall p :: Ready(Scene(7), p) <= {0, 1};
  }

  lemma {:induction false} Opening()
    ensures Scene(0) == State(0, map[], [], map[], {})
    ensures StepTaken(Scene(0), Insert(0, NOTE), Scene(1)) && StepTaken(Scene(1), Insert(1, NOTE), Scene(2))
    ensures StepTaken(Scene(2), Begin(0, 2, [PAIR]), Scene(3)) && StepTaken(Scene(3), Insert(2, NOTE), Scene(4))
    ensures StepTaken(Scene(4), Begin(1, 2, [TRIPLE]), Scene(5))
  {
  }

  lemma {:induction false} BothListsQueried()
    ensures CandidateGroups(Scene(2).table, 0, Scene(2).now, 2, 1, [PAIR])
    ensures CandidateGroups(Scene(4).table, 0, Scene(4).now, 2, 1, [TRIPLE])
  {
    PairIsCandidate();
    TripleIsCandidate();
    hide CandidateGroups;
  }

  /** A failing input: two compactors start from lists of two and of three records of one group, each what the
      candidate query returned; the first stamps its two, and the second then stamps the third without
      listing it. */
  lemma {:induction false} InterleavedOrphan() returns (states: seq<State>, steps: seq<Step>)
    ensures |steps| == 7 && Execution(states, steps) && Orphan(states[7], 2)
    ensures steps[2] == Begin(0, 2, [PAIR]) && CandidateGroups(states[2].table, 0, states[2].now, 2, 1, [PAIR])
    ensures steps[4] == Begin(1, 2, [TRIPLE]) && CandidateGroups(states[4].table, 0, states[4].now, 2, 1, [TRIPLE])
  {
    hide Scene;
    hide StepTaken;
    hide Orphan;
    hide CandidateGroups;
    Opening();
    FirstStamp();
    SecondStamp();
    ThirdIsOrphan();
    BothListsQueried();
    states := [Scene(0), Scene(1), Scene(2), Scene(3), Scene(4), Scene(5), Scene(6), Scene(7)];
    steps := [Insert(0, NOTE), Insert(1, NOTE), Begin(0, 2, [PAIR]), Insert(2, NOTE), Begin(1, 2, [TRIPLE]),
              StampNext(0), StampNext(1)];
  }
}
