// The tamper-evident compliance audit chain: routing an event to it, purging it and verifying it.
module AuditChain {
  import opened Prelude
  import opened Text

  type EventId = nat

  datatype Event = Event(tenant: string, createdAt: Time, chainSeq: Option<int>, prevHash: Option<string>, hash: string)
  type Table = map<EventId, Event>

  datatype Report = Report(checked: nat, verified: bool, firstInvalid: Option<EventId>,
                           latestSeq: Option<int>, latestHash: Option<string>)

  // SQLite's datetime() keeps whole seconds.
  function WholeSeconds(t: Time): int
  {
    t / SECOND
  }

  // COALESCE(tamper_chain_seq, 0)
  function SortSeq(e: Event): int
  {
    if e.chainSeq.Some? then e.chainSeq.value else 0
  }

  // ORDER BY COALESCE(tamper_chain_seq, 0), datetime(created_at), id
  predicate Before(events: Table, a: EventId, b: EventId)
    requires a in events && b in events
  {
    var x, y := events[a], events[b];
    || SortSeq(x) < SortSeq(y)
    || (SortSeq(x) == SortSeq(y) && WholeSeconds(x.createdAt) < WholeSeconds(y.createdAt))
    || (SortSeq(x) == SortSeq(y) && WholeSeconds(x.createdAt) == WholeSeconds(y.createdAt) && a < b)
  }

  predicate Of(events: Table, tenant: string, id: EventId)
  {
    id in events && events[id].tenant == tenant
  }

  // The rows of a tenant in chain order.
  ghost predicate Listing(events: Table, tenant: string, ids: seq<EventId>)
  {
    && (forall i :: 0 <= i < |ids| ==> Of(events, tenant, ids[i]))
    && (forall id :: Of(events, tenant, id) ==> id in ids)
    && forall i, j :: 0 <= i < j < |ids| ==> Before(events, ids[i], ids[j])
  }

  predicate AllIn(events: Table, ids: seq<EventId>)
  {
    forall k :: 0 <= k < |ids| ==> ids[k] in events
  }

  function HashText(hash: Option<string>): string
  {
    if hash.Some? then hash.value else ""
  }

  // Row i holds the number i + 1, the hash of the row before it, and a hash that is not blank.
  predicate RowValid(events: Table, ids: seq<EventId>, i: nat)
    requires i < |ids| && AllIn(events, ids)
  {
    var e := events[ids[i]];
    && e.chainSeq == Some(i + 1)
    && HashText(e.prevHash) == (if i == 0 then "" else events[ids[i - 1]].hash)
    && Trim(e.hash) != ""
  }

  ghost predicate Sound(events: Table, ids: seq<EventId>)
    requires AllIn(events, ids)
  {
    forall i :: 0 <= i < |ids| ==> RowValid(events, ids, i)
  }

  // The tenant's chain as the verification endpoint judges it.
  ghost predicate Verifies(events: Table, tenant: string)
  {
    exists ids :: Listing(events, tenant, ids) && Sound(events, ids)
  }

  predicate Expired(e: Event, cutoff: Time)
  {
    WholeSeconds(e.createdAt) < WholeSeconds(cutoff)
  }

  function Purged(events: Table, tenant: string, cutoff: Time): set<EventId>
  {
    set id | id in events && events[id].tenant == tenant && Expired(events[id], cutoff)
  }

  // The row with the greatest sequence number, none for an empty chain.
  ghost predicate IsHead(events: Table, tenant: string, head: Option<EventId>)
  {
    match head
    case None => forall id :: !Of(events, tenant, id)
    case Some(h) =>
      Of(events, tenant, h) && forall id :: Of(events, tenant, id) ==> SortSeq(events[id]) <= SortSeq(events[h])
  }

  function Linked(events: Table, tenant: string, head: Option<EventId>, createdAt: Time, hash: string): Event
    requires head.Some? ==> head.value in events
  {
    match head
    case None => Event(tenant, createdAt, Some(1), None, hash)
    case Some(h) => Event(tenant, createdAt, Some(SortSeq(events[h]) + 1), Some(events[h].hash), hash)
  }

  // The earliest bad row among the first n, none if they are all valid.
  ghost predicate FirstInvalidIs(events: Table, ids: seq<EventId>, n: nat, first: Option<EventId>)
    requires AllIn(events, ids) && n <= |ids|
  {
    match first
    case None => forall j :: 0 <= j < n ==> RowValid(events, ids, j)
    case Some(id) => exists k :: 0 <= k < n && ids[k] == id && FirstBad(events, ids, k)
  }

  ghost predicate FirstBad(events: Table, ids: seq<EventId>, k: nat)
    requires AllIn(events, ids) && k < |ids|
  {
    !RowValid(events, ids, k) && forall j :: 0 <= j < k ==> RowValid(events, ids, j)
  }

  lemma {:induction false} FirstInvalidNext(events: Table, ids: seq<EventId>, n: nat, first: Option<EventId>)
    requires AllIn(events, ids) && n < |ids| && FirstInvalidIs(events, ids, n, first)
    ensures FirstInvalidIs(events, ids, n + 1, if first.None? && !RowValid(events, ids, n) then Some(ids[n]) else first)
  {
    if first.Some? {
      var k :| 0 <= k < n && ids[k] == first.value && FirstBad(events, ids, k);
      assert 0 <= k < n + 1;
    } else if !RowValid(events, ids, n) {
      assert FirstBad(events, ids, n);
    }
  }

  // The greatest sequence number among the first n rows, none if no row has one.
  ghost predicate LatestSeqIs(events: Table, ids: seq<EventId>, n: nat, latest: Option<int>)
    requires AllIn(events, ids) && n <= |ids|
  {
    && (forall k :: 0 <= k < n && events[ids[k]].chainSeq.Some? ==>
          latest.Some? && events[ids[k]].chainSeq.value <= latest.value)
    && (latest.Some? ==> exists k :: 0 <= k < n && events[ids[k]].chainSeq == latest)
  }

  lemma {:induction false} LatestSeqNext(events: Table, ids: seq<EventId>, n: nat, latest: Option<int>)
    requires AllIn(events, ids) && n < |ids| && LatestSeqIs(events, ids, n, latest)
    ensures var s := events[ids[n]].chainSeq;
            LatestSeqIs(events, ids, n + 1, if latest.Some? && s.Some? then Some(Max(latest.value, s.value))
                                            else if s.Some? then s else latest)
  {
    if latest.Some? {
      var k :| 0 <= k < n && events[ids[k]].chainSeq == latest;
      assert 0 <= k < n + 1;
    }
  }

  lemma {:induction false} VerdictOfListing(events: Table, tenant: string, ids: seq<EventId>)
    requires Listing(events, tenant, ids)
    ensures Verifies(events, tenant) <==> Sound(events, ids)
  {
    if Verifies(events, tenant) {
      var other :| Listing(events, tenant, other) && Sound(events, other);
      ListingUnique(events, tenant, other, ids);
    }
  }

  // Chain order determines the listing.
  lemma {:induction false} ListingUnique(events: Table, tenant: string, a: seq<EventId>, b: seq<EventId>)
    requires Listing(events, tenant, a) && Listing(events, tenant, b)
    ensures a == b
  {
    forall i | 0 <= i < |a|
      ensures i < |b| && a[i] == b[i]
    {
      SamePlace(events, tenant, a, b, i);
    }
    if |a| < |b| {
      SamePlace(events, tenant, b, a, |a|);
    }
    if |b| < |a| {
      SamePlace(events, tenant, a, b, |b|);
    }
  }

  /** The rows are examined by sequence number, missing ones counting as zero, then by second, then by id. */
  lemma {:induction false} ExaminedInOrder(events: Table, tenant: string, ids: seq<EventId>, i: nat, j: nat)
    requires Listing(events, tenant, ids) && i < j < |ids|
    ensures var a, b := events[ids[i]], events[ids[j]];
            var m, n := if a.chainSeq.Some? then a.chainSeq.value else 0, if b.chainSeq.Some? then b.chainSeq.value else 0;
            var s, t := a.createdAt / 1_000_000_000, b.createdAt / 1_000_000_000;
            m < n || (m == n && (s < t || (s == t && ids[i] < ids[j])))
  {
    assert Before(events, ids[i], ids[j]);
  }

  lemma {:induction false} SamePlace(events: Table, tenant: string, a: seq<EventId>, b: seq<EventId>, i: nat)
    requires Listing(events, tenant, a) && Listing(events, tenant, b) && i < |a|
    ensures i < |b| && a[i] == b[i]
  {
    forall j | 0 <= j < i
      ensures j < |b| && a[j] == b[j]
    {
      SamePlace(events, tenant, a, b, j);
    }
    assert Of(events, tenant, a[i]);
    var k :| 0 <= k < |b| && b[k] == a[i];
    assert k < i ==> Before(events, a[k], a[i]);
    if k > i {
      assert Of(events, tenant, b[i]);
      var m :| 0 <= m < |a| && a[m] == b[i];
      assert m < i ==> Before(events, b[m], b[i]);
    }
  }

  const DAY: int := 86_400 * SECOND

  lemma {:induction false} SizeWithout(events: Table, gone: set<EventId>)
    requires gone <= events.Keys
    ensures |events - gone| == |events| - |gone|
  {
    assert (events - gone).Keys == events.Keys - gone;
  }

  class Store {
    var events: Table

    constructor ()
      ensures events == map[]
    {
      events := map[];
    }

    // The audit trigger: number and link the event after the chain's head; a known event is left alone.
    method Append(id: EventId, tenant: string, createdAt: Time, hash: string, head: Option<EventId>)
      requires IsHead(events, tenant, head)
      modifies this
      ensures events == if id in old(events) then old(events)
                        else old(events)[id := Linked(old(events), tenant, head, createdAt, hash)]
    {
      if id !in events {
        events := events[id := Linked(events, tenant, head, createdAt, hash)];
      }
    }

    /** The purge deletes exactly the tenant's rows created, in whole seconds, before the retention period, and
        nothing under a legal hold. */
    method Purge(tenant: string, now: Time, retentionDays: nat, legalHold: bool) returns (deleted: nat)
      modifies this
      ensures forall id :: id in events ==> id in old(events) && events[id] == old(events)[id]
      ensures forall id :: id in old(events) ==>
                (id !in events <==>
                 && !legalHold && old(events)[id].tenant == tenant
                 && old(events)[id].createdAt / 1_000_000_000 < (now - retentionDays * 86_400_000_000_000) / 1_000_000_000)
      ensures deleted == |old(events)| - |events|
      ensures !legalHold ==> events == old(events) - Purged(old(events), tenant, now - retentionDays * DAY)
    {
      if legalHold {
        return 0;
      }
      var gone := Purged(events, tenant, now - retentionDays * DAY);
      SizeWithout(events, gone);
      events := events - gone;
      deleted := |gone|;
    }

    /** The verification loop: success exactly for a sound chain, otherwise the earliest bad row, and the
        greatest sequence number and the last hash seen. */
    method Verify(tenant: string, ids: seq<EventId>) returns (r: Report)
      requires Listing(events, tenant, ids)
      ensures r.checked == |ids|
      ensures r.verified <==> Verifies(events, tenant)
      ensures r.verified <==> r.firstInvalid.None?
      ensures FirstInvalidIs(events, ids, |ids|, r.firstInvalid)
      ensures LatestSeqIs(events, ids, |ids|, r.latestSeq)
      ensures r.latestHash == if ids == [] then None else Some(events[ids[|ids| - 1]].hash)
    {
      hide Trim;
      hide Before;
      var firstInvalid: Option<EventId> := None;
      var latestSeq: Option<int> := None;
      var latestHash: Option<string> := None;
      var expectedPrev: Option<string> := None;
      for i := 0 to |ids|
        invariant expectedPrev == if i == 0 then None else Some(events[ids[i - 1]].hash)
        invariant latestHash == expectedPrev
        invariant FirstInvalidIs(events, ids, i, firstInvalid)
        invariant LatestSeqIs(events, ids, i, latestSeq)
      {
        hide FirstInvalidIs;
        hide LatestSeqIs;
        var e := events[ids[i]];
        FirstInvalidNext(events, ids, i, firstInvalid);
        LatestSeqNext(events, ids, i, latestSeq);
        latestSeq := if latestSeq.Some? && e.chainSeq.Some? then Some(Max(latestSeq.value, e.chainSeq.value))
                     else if e.chainSeq.Some? then e.chainSeq else latestSeq;
        latestHash := Some(e.hash);
        var seqValid := e.chainSeq.Some? && e.chainSeq.value == i + 1;
        var prevValid := HashText(e.prevHash) == HashText(expectedPrev);
        var hashValid := Trim(e.hash) != "";
        if firstInvalid.None? && !(seqValid && prevValid && hashValid) {
          firstInvalid := Some(ids[i]);
        }
        expectedPrev := Some(e.hash);
      }
      VerdictOfListing(events, tenant, ids);
      r := Report(|ids|, firstInvalid.None?, firstInvalid, latestSeq, latestHash);
    }
  }

  // ---------------------------------------------------------------------------------------------
  // Deletions
  // ---------------------------------------------------------------------------------------------

  // Every row taken out follows every row left in.
  ghost predicate TakesSuffix(events: Table, tenant: string, gone: set<EventId>)
  {
    forall a, b :: Of(events, tenant, a) && Of(events, tenant, b) && a in gone && b !in gone ==>
                     SortSeq(events[b]) < SortSeq(events[a])
  }

  // In a sound chain the number of a row is its place.
  lemma {:induction false} PlaceOf(events: Table, tenant: string, ids: seq<EventId>, id: EventId)
    requires Listing(events, tenant, ids) && Sound(events, ids) && Of(events, tenant, id)
    ensures 1 <= SortSeq(events[id]) <= |ids| && ids[SortSeq(events[id]) - 1] == id
  {
    var k :| 0 <= k < |ids| && ids[k] == id;
    assert RowValid(events, ids, k);
  }

  /** Deleting rows from a verified chain leaves a verified chain if and only if the deleted rows are a
      suffix of it: every other deletion is detected. */
  lemma {:induction false} DeletionDetected(events: Table, tenant: string, gone: set<EventId>)
    requires Verifies(events, tenant)
    ensures Verifies(events - gone, tenant) <==> TakesSuffix(events, tenant, gone)
  {
    var ids :| Listing(events, tenant, ids) && Sound(events, ids);
    if TakesSuffix(events, tenant, gone) {
      SuffixKeepsPrefix(events, tenant, ids, gone, |ids|);
    }
    if Verifies(events - gone, tenant) {
      VerifiedRestIsPrefix(events, tenant, ids, gone);
    }
  }

  lemma {:induction false} SuffixKeepsPrefix(events: Table, tenant: string, ids: seq<EventId>, gone: set<EventId>, k: nat)
    requires Listing(events, tenant, ids) && Sound(events, ids) && TakesSuffix(events, tenant, gone)
    requires k <= |ids| && forall i :: k <= i < |ids| ==> ids[i] in gone
    ensures Verifies(events - gone, tenant)
    decreases k
  {
    if k > 0 && ids[k - 1] in gone {
      SuffixKeepsPrefix(events, tenant, ids, gone, k - 1);
    } else {
      forall i | 0 <= i < k
        ensures ids[i] !in gone
      {
        assert RowValid(events, ids, i) && RowValid(events, ids, k - 1);
        assert Of(events, tenant, ids[i]) && Of(events, tenant, ids[k - 1]);
      }
      PrefixIsSound(events, tenant, ids, gone, k);
    }
  }

  lemma {:induction false} PrefixIsSound(events: Table, tenant: string, ids: seq<EventId>, gone: set<EventId>, k: nat)
    requires Listing(events, tenant, ids) && Sound(events, ids) && k <= |ids|
    requires forall i :: 0 <= i < |ids| ==> (ids[i] in gone <==> k <= i)
    ensures Listing(events - gone, tenant, ids[..k]) && Sound(events - gone, ids[..k])
  {
    var rest, kept := events - gone, ids[..k];
    forall id | Of(rest, tenant, id)
      ensures id in kept
    {
      assert Of(events, tenant, id);
      var i :| 0 <= i < |ids| && ids[i] == id;
      assert kept[i] == id;
    }
    forall i | 0 <= i < k
      ensures RowValid(rest, kept, i)
    {
      assert RowValid(events, ids, i);
    }
  }

  lemma {:induction false} VerifiedRestIsPrefix(events: Table, tenant: string, ids: seq<EventId>, gone: set<EventId>)
    requires Listing(events, tenant, ids) && Sound(events, ids) && Verifies(events - gone, tenant)
    ensures TakesSuffix(events, tenant, gone)
  {
    var rest := events - gone;
    var kept :| Listing(rest, tenant, kept) && Sound(rest, kept);
    forall a, b | Of(events, tenant, a) && Of(events, tenant, b) && a in gone && b !in gone
      ensures SortSeq(events[b]) < SortSeq(events[a])
    {
      PlaceOf(events, tenant, ids, a);
      PlaceOf(rest, tenant, kept, b);
      var p := SortSeq(events[a]) - 1;
      if p < |kept| {
        assert RowValid(rest, kept, p) && Of(events, tenant, kept[p]);
        PlaceOf(events, tenant, ids, kept[p]);
      }
    }
  }

  /** A purge of some but not all rows of a verified chain whose later rows are not older is reported. */
  lemma {:induction false} PartialPurgeReported(events: Table, tenant: string, cutoff: Time, aged: EventId, young: EventId)
    requires Verifies(events, tenant)
    requires forall a, b :: Of(events, tenant, a) && Of(events, tenant, b) && SortSeq(events[a]) < SortSeq(events[b]) ==>
                              events[a].createdAt <= events[b].createdAt
    requires Of(events, tenant, aged) && Expired(events[aged], cutoff)
    requires Of(events, tenant, young) && !Expired(events[young], cutoff)
    ensures !Verifies(events - Purged(events, tenant, cutoff), tenant)
  {
    var gone := Purged(events, tenant, cutoff);
    DeletionDetected(events, tenant, gone);
    assert aged in gone && young !in gone;
    SecondsMonotone(events[young].createdAt, events[aged].createdAt);
  }

  lemma {:induction false} SecondsMonotone(a: Time, b: Time)
    ensures a <= b ==> WholeSeconds(a) <= WholeSeconds(b)
  {
  }

  // ---------------------------------------------------------------------------------------------
  // Alterations
  // ---------------------------------------------------------------------------------------------

  predicate IsLast(events: Table, tenant: string, id: EventId)
    requires id in events
  {
    forall x :: x in events && events[x].tenant == tenant ==> SortSeq(events[x]) <= SortSeq(events[id])
  }

  // The changed chain columns still number the row, link it, and hash it as the next row expects.
  predicate Unnoticed(events: Table, tenant: string, id: EventId, e: Event)
    requires id in events
  {
    && e.chainSeq == events[id].chainSeq && HashText(e.prevHash) == HashText(events[id].prevHash)
    && Trim(e.hash) != "" && (e.hash == events[id].hash || IsLast(events, tenant, id))
  }

  /** Altering the chain columns of one row of a verified chain goes unnoticed exactly when the number and the link
      stay the same, the hash is not blank, and it is the same unless the row is the last. */
  lemma {:induction false} AlterationDetected(events: Table, tenant: string, id: EventId, e: Event)
    requires Verifies(events, tenant) && Of(events, tenant, id)
    requires e.tenant == tenant && e.createdAt == events[id].createdAt
    ensures Verifies(events[id := e], tenant) <==> Unnoticed(events, tenant, id, e)
  {
    var ids :| Listing(events, tenant, ids) && Sound(events, ids);
    if Unnoticed(events, tenant, id, e) {
      UnnoticedIsSound(events, tenant, ids, id, e);
    }
    if Verifies(events[id := e], tenant) {
      var ids' :| Listing(events[id := e], tenant, ids') && Sound(events[id := e], ids');
      SameChain(events, tenant, ids, id, e, ids');
      SoundIsUnnoticed(events, tenant, ids, id, e);
    }
  }

  lemma {:induction false} UnnoticedIsSound(events: Table, tenant: string, ids: seq<EventId>, id: EventId, e: Event)
    requires Listing(events, tenant, ids) && Sound(events, ids) && Of(events, tenant, id)
    requires e.tenant == tenant && e.createdAt == events[id].createdAt && Unnoticed(events, tenant, id, e)
    ensures Listing(events[id := e], tenant, ids) && Sound(events[id := e], ids)
  {
    hide Trim;
    var events' := events[id := e];
    forall x: EventId | Of(events', tenant, x)
      ensures x in ids
    {
      assert Of(events, tenant, x);
    }
    forall i | 0 <= i < |ids|
      ensures RowValid(events', ids, i)
    {
      assert RowValid(events, ids, i) && Of(events, tenant, ids[i]);
      if i > 0 && ids[i - 1] == id {
        assert RowValid(events, ids, i - 1);
      }
    }
  }

  lemma {:induction false} SameChain(events: Table, tenant: string, ids: seq<EventId>, id: EventId, e: Event, ids': seq<EventId>)
    requires Listing(events, tenant, ids) && Sound(events, ids) && Of(events, tenant, id) && e.tenant == tenant
    requires Listing(events[id := e], tenant, ids') && Sound(events[id := e], ids')
    ensures ids' == ids
  {
    hide Trim;
    hide Before;
    hide HashText;
    var events' := events[id := e];
    PlaceOf(events, tenant, ids, id);
    PlaceOf(events', tenant, ids', id);
    var p, q := SortSeq(events[id]) - 1, SortSeq(e) - 1;
    if p != q {
      if p < |ids'| {
        assert RowValid(events', ids', p) && Of(events', tenant, ids'[p]);
        PlaceOf(events, tenant, ids, ids'[p]);
      } else {
        assert RowValid(events, ids, q) && Of(events, tenant, ids[q]);
        PlaceOf(events', tenant, ids', ids[q]);
      }
    }
    forall i | 0 <= i < |ids|
      ensures i < |ids'| && ids'[i] == ids[i]
    {
      assert RowValid(events, ids, i) && Of(events', tenant, ids[i]);
      PlaceOf(events', tenant, ids', ids[i]);
    }
    if |ids| < |ids'| {
      assert RowValid(events', ids', |ids|) && Of(events, tenant, ids'[|ids|]);
      PlaceOf(events, tenant, ids, ids'[|ids|]);
    }
  }

  lemma {:induction false} SoundIsUnnoticed(events: Table, tenant: string, ids: seq<EventId>, id: EventId, e: Event)
    requires Listing(events, tenant, ids) && Sound(events, ids) && Of(events, tenant, id)
    requires AllIn(events[id := e], ids) && Sound(events[id := e], ids)
    ensures Unnoticed(events, tenant, id, e)
  {
    hide Trim;
    var events' := events[id := e];
    PlaceOf(events, tenant, ids, id);
    var p := SortSeq(events[id]) - 1;
    assert RowValid(events, ids, p) && RowValid(events', ids, p);
    if p + 1 < |ids| {
      assert RowValid(events, ids, p + 1) && RowValid(events', ids, p + 1);
    } else {
      forall x: EventId | x in events && events[x].tenant == tenant
        ensures SortSeq(events[x]) <= SortSeq(events[id])
      {
        PlaceOf(events, tenant, ids, x);
      }
    }
  }

  // ---------------------------------------------------------------------------------------------
  // Histories
  // ---------------------------------------------------------------------------------------------

  lemma {:induction false} HeadIsLast(events: Table, tenant: string, ids: seq<EventId>, head: Option<EventId>)
    requires Listing(events, tenant, ids) && Sound(events, ids) && IsHead(events, tenant, head)
    ensures head == if ids == [] then None else Some(ids[|ids| - 1])
  {
    assert head.Some? ==> Of(events, tenant, head.value);
    if ids != [] {
      var last := |ids| - 1;
      assert Of(events, tenant, ids[last]) && RowValid(events, ids, last);
      PlaceOf(events, tenant, ids, head.value);
    }
  }

  /** Appending neither breaks a verified chain nor repairs a broken one. */
  lemma {:induction false} AppendKeepsVerdict(events: Table, tenant: string, head: Option<EventId>, id: EventId, createdAt: Time, hash: string)
    requires IsHead(events, tenant, head) && id !in events && Trim(hash) != ""
    ensures Verifies(events[id := Linked(events, tenant, head, createdAt, hash)], tenant) <==> Verifies(events, tenant)
  {
    var events' := events[id := Linked(events, tenant, head, createdAt, hash)];
    if Verifies(events, tenant) {
      var ids :| Listing(events, tenant, ids) && Sound(events, ids);
      HeadIsLast(events, tenant, ids, head);
      AppendIsSound(events, tenant, ids, id, createdAt, hash);
    }
    if Verifies(events', tenant) {
      assert events' - {id} == events;
      forall b: EventId | Of(events', tenant, b) && b != id
        ensures SortSeq(events'[b]) < SortSeq(events'[id])
      {
        assert Of(events, tenant, b);
      }
      assert TakesSuffix(events', tenant, {id});
      DeletionDetected(events', tenant, {id});
    }
  }

  lemma {:induction false} AppendedRows(events: Table, tenant: string, ids: seq<EventId>, id: EventId, createdAt: Time, hash: string, i: nat)
    requires Listing(events, tenant, ids) && Sound(events, ids) && id !in events && Trim(hash) != "" && i <= |ids|
    ensures var head := if ids == [] then None else Some(ids[|ids| - 1]);
            var events' := events[id := Linked(events, tenant, head, createdAt, hash)];
            && AllIn(events', ids + [id]) && Of(events', tenant, (ids + [id])[i]) && RowValid(events', ids + [id], i)
  {
    hide Trim;
    hide Before;
    if i < |ids| {
      assert RowValid(events, ids, i);
    } else if ids != [] {
      assert RowValid(events, ids, |ids| - 1);
    }
  }

  lemma {:induction false} AppendIsSound(events: Table, tenant: string, ids: seq<EventId>, id: EventId, createdAt: Time, hash: string)
    requires Listing(events, tenant, ids) && Sound(events, ids) && id !in events && Trim(hash) != ""
    ensures var head := if ids == [] then None else Some(ids[|ids| - 1]);
            Verifies(events[id := Linked(events, tenant, head, createdAt, hash)], tenant)
  {
    hide Linked;
    var head := if ids == [] then None else Some(ids[|ids| - 1]);
    var events' := events[id := Linked(events, tenant, head, createdAt, hash)];
    var ids' := ids + [id];
    forall i | 0 <= i < |ids'|
      ensures AllIn(events', ids') && Of(events', tenant, ids'[i]) && RowValid(events', ids', i)
    {
      AppendedRows(events, tenant, ids, id, createdAt, hash, i);
    }
    forall e: EventId | Of(events', tenant, e)
      ensures e in ids'
    {
      assert e == id || Of(events, tenant, e);
    }
    assert AllIn(events', ids');
    forall i, j | 0 <= i < j < |ids'|
      ensures Before(events', ids'[i], ids'[j])
    {
      assert RowValid(events', ids', i) && RowValid(events', ids', j);
    }
    assert Listing(events', tenant, ids') && Sound(events', ids');
  }

  datatype Step =
    | Route(id: EventId, tenant: string, createdAt: Time, hash: string, head: Option<EventId>)
    | Delete(tenant: string, cutoff: Time)

  ghost predicate StepTaken(events: Table, step: Step, events': Table)
  {
    match step
    case Route(id, tenant, createdAt, hash, head) =>
      && IsHead(events, tenant, head)
      && events' == if id in events then events else events[id := Linked(events, tenant, head, createdAt, hash)]
    case Delete(tenant, cutoff) => events' == events - Purged(events, tenant, cutoff)
  }

  ghost predicate Execution(states: seq<Table>, steps: seq<Step>)
  {
    && |states| == |steps| + 1
    && forall i :: 0 <= i < |steps| ==> StepTaken(states[i], steps[i], states[i + 1])
  }

  ghost predicate HasRows(events: Table, tenant: string)
  {
    exists id :: Of(events, tenant, id)
  }

  // Rows are left, and all of them are numbered above one.
  ghost predicate LostStart(events: Table, tenant: string)
  {
    && HasRows(events, tenant)
    && forall id :: Of(events, tenant, id) ==> SortSeq(events[id]) > 1
  }

  lemma {:induction false} VerifiedHasFirst(events: Table, tenant: string)
    requires Verifies(events, tenant) && HasRows(events, tenant)
    ensures exists id :: Of(events, tenant, id) && SortSeq(events[id]) == 1
  {
    var ids :| Listing(events, tenant, ids) && Sound(events, ids);
    var id :| Of(events, tenant, id);
    PlaceOf(events, tenant, ids, id);
    assert RowValid(events, ids, 0) && Of(events, tenant, ids[0]);
  }

  lemma {:induction false} LostStartFails(events: Table, tenant: string)
    requires LostStart(events, tenant)
    ensures !Verifies(events, tenant)
  {
    if Verifies(events, tenant) {
      VerifiedHasFirst(events, tenant);
    }
  }

  lemma {:induction false} LostStartStep(events: Table, step: Step, events': Table, tenant: string)
    requires StepTaken(events, step, events') && LostStart(events, tenant)
    requires HasRows(events', tenant)
    ensures LostStart(events', tenant)
  {
    forall id | Of(events', tenant, id)
      ensures SortSeq(events'[id]) > 1
    {
      if Of(events, tenant, id) {
        assert SortSeq(events[id]) > 1;
      }
    }
  }

  // A deletion that takes the first row of a verified chain and leaves others.
  lemma {:induction false} FirstRowLost(events: Table, tenant: string, gone: set<EventId>, first: EventId)
    requires Verifies(events, tenant) && Of(events, tenant, first) && SortSeq(events[first]) == 1 && first in gone
    requires HasRows(events - gone, tenant)
    ensures LostStart(events - gone, tenant)
  {
    var ids :| Listing(events, tenant, ids) && Sound(events, ids);
    PlaceOf(events, tenant, ids, first);
    forall id: EventId | Of(events - gone, tenant, id)
      ensures SortSeq((events - gone)[id]) > 1
    {
      PlaceOf(events, tenant, ids, id);
    }
  }

  lemma {:induction false} LostStartKept(states: seq<Table>, steps: seq<Step>, tenant: string, m: nat, n: nat)
    requires Execution(states, steps) && m <= n < |states| && LostStart(states[m], tenant)
    requires forall i :: m <= i <= n ==> HasRows(states[i], tenant)
    ensures LostStart(states[n], tenant)
    decreases n
  {
    if m < n {
      LostStartKept(states, steps, tenant, m, n - 1);
      assert StepTaken(states[n - 1], steps[n - 1], states[n - 1 + 1]);
      LostStartStep(states[n - 1], steps[n - 1], states[n], tenant);
    }
  }

  /** Once a purge takes the first row of a verified chain, verification fails in every later state of any
      history of routed events and purges, as long as the tenant has rows. */
  lemma {:induction false} LostStartStays(states: seq<Table>, steps: seq<Step>, tenant: string, cutoff: Time, first: EventId, m: nat, n: nat)
    requires Execution(states, steps) && m < n < |states|
    requires Verifies(states[m], tenant) && steps[m] == Delete(tenant, cutoff)
    requires Of(states[m], tenant, first) && SortSeq(states[m][first]) == 1 && Expired(states[m][first], cutoff)
    requires forall i :: m < i <= n ==> HasRows(states[i], tenant)
    ensures !Verifies(states[n], tenant)
  {
    assert StepTaken(states[m], steps[m], states[m + 1]);
    FirstRowLost(states[m], tenant, Purged(states[m], tenant, cutoff), first);
    LostStartKept(states, steps, tenant, m + 1, n);
    LostStartFails(states[n], tenant);
  }
}
