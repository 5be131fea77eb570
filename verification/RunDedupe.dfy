// Creating a run: requests that are equal up to JSON key order collapse onto one active run.
module RunDedupe {
  import opened Prelude
  import opened Json
  import Capabilities
  import opened RunTable
  import opened RunStore
  import opened ClaimProtocol
  import RunLifecycle

  // Identifiers are kept in their text form.
  datatype Request = Request(
    tenant: Tenant,
    agent: string,
    user: Option<string>,
    recipe: string,
    input: Json,
    capabilities: Json,
    role: Capabilities.Role)

  function RoleName(role: Capabilities.Role): string
  {
    match role
    case Owner => "owner"
    case Operator => "operator"
    case Viewer => "viewer"
  }

  // compute_run_semantic_dedupe_key; the canonical payload stands for its digest.
  function DedupeKey(req: Request): Json
  {
    Obj([
      Field("tenant_id", Str(req.tenant)),
      Field("agent_id", Str(req.agent)),
      Field("triggered_by_user_id", if req.user.None? then Null else Str(req.user.value)),
      Field("recipe_id", Str(req.recipe)),
      Field("role_preset", Str(RoleName(req.role))),
      Field("input", Canon(req.input)),
      Field("requested_capabilities", Canon(req.capabilities))])
  }

  predicate WellFormedRequest(req: Request)
  {
    WellFormed(req.input) && WellFormed(req.capabilities)
  }

  // The same request, up to the order of object fields in its two JSON parts.
  ghost predicate SameRequest(a: Request, b: Request)
  {
    && a.tenant == b.tenant && a.agent == b.agent && a.user == b.user && a.recipe == b.recipe && a.role == b.role
    && SameUpToKeyOrder(a.input, b.input) && SameUpToKeyOrder(a.capabilities, b.capabilities)
  }

  lemma {:induction false} RoleNamesDiffer(a: Capabilities.Role, b: Capabilities.Role)
    requires RoleName(a) == RoleName(b)
    ensures a == b
  {
    assert "owner"[1] == 'w' && "operator"[1] == 'p' && "viewer"[1] == 'i';
  }

  /** Two requests share a dedupe key exactly when they are the same up to key order. */
  lemma {:induction false} KeyDecidesSameness(a: Request, b: Request)
    requires WellFormedRequest(a) && WellFormedRequest(b)
    ensures DedupeKey(a) == DedupeKey(b) <==> SameRequest(a, b)
  {
    CanonDecidesKeyOrder(a.input, b.input);
    CanonDecidesKeyOrder(a.capabilities, b.capabilities);
    hide Canon;
    hide SameUpToKeyOrder;
    hide WellFormed;
    hide RoleName;
    if DedupeKey(a) == DedupeKey(b) {
      var p, q := DedupeKey(a).fields, DedupeKey(b).fields;
      assert forall i :: 0 <= i < 7 ==> p[i].value == q[i].value;
      assert p[0].value == Str(a.tenant) && p[1].value == Str(a.agent) && p[3].value == Str(a.recipe);
      assert p[4].value == Str(RoleName(a.role)) && p[5].value == Canon(a.input);
      assert p[6].value == Canon(a.capabilities);
      RoleNamesDiffer(a.role, b.role);
    }
  }

  // The row inserted for a request, apart from columns no statement here reads.
  function NewRow(req: Request, queueClass: Option<string>, llmQueueClass: Option<string>, now: Time): Run
  {
    Run(req.tenant, Queued, 0, None, None, now, None, None, queueClass, llmQueueClass, Some(DedupeKey(req)))
  }

  // What create_run_common reports: a capability request that does not parse, 201 with a new run, 200 with
  // an active one, or 409 when the active run ended between the two queries.
  datatype Outcome = Rejected(message: string) | Created(id: RunId) | Existing(id: RunId) | Conflict

  predicate Resolvable(req: Request)
  {
    Capabilities.Resolved(req.recipe, req.role, req.capabilities).Ok?
  }

  // A row whose key was computed from an equivalent request of the same tenant, still active.
  ghost predicate ActiveFor(r: Run, req: Request)
  {
    Active(r) && exists other ::
      WellFormedRequest(other) && SameRequest(other, req) && r.tenant == other.tenant && r.dedupeKey == Some(DedupeKey(other))
  }

  lemma {:induction false} CollidesIsActiveFor(r: Run, req: Request)
    requires WellFormedRequest(req)
    ensures Collides(r, req.tenant, Some(DedupeKey(req))) <==> ActiveFor(r, req)
  {
    hide DedupeKey;
    hide SameUpToKeyOrder;
    if Collides(r, req.tenant, Some(DedupeKey(req))) {
      KeyDecidesSameness(req, req);
      assert SameRequest(req, req);
    }
    if ActiveFor(r, req) {
      var other :| WellFormedRequest(other) && SameRequest(other, req) && r.tenant == other.tenant &&
                   r.dedupeKey == Some(DedupeKey(other));
      KeyDecidesSameness(other, req);
    }
  }

  lemma {:induction false} SameAsItself(a: Request)
    requires WellFormedRequest(a)
    ensures SameRequest(a, a)
  {
    KeyDecidesSameness(a, a);
  }

  /** A new run starts queued, unclaimed and unleased, and stands for exactly the requests that are the same up to
      key order. */
  lemma {:induction false} NewRowServes(a: Request, b: Request, queueClass: Option<string>, llmQueueClass: Option<string>, now: Time)
    requires WellFormedRequest(a) && WellFormedRequest(b)
    ensures Fresh(NewRow(a, queueClass, llmQueueClass, now), now)
    ensures ActiveFor(NewRow(a, queueClass, llmQueueClass, now), b) <==> SameRequest(a, b)
  {
    hide DedupeKey;
    hide SameUpToKeyOrder;
    SameAsItself(b);
    CollidesIsActiveFor(NewRow(a, queueClass, llmQueueClass, now), b);
    KeyDecidesSameness(a, b);
  }

  /** Creating a run is the protocol's create step: it inserts the fresh row exactly when no equal request has an
      active run, and an equal request made next collides with that row and no other. */
  lemma {:induction false} CreateIsProtocolStep(cfg: Config, s: State, id: RunId, a: Request, b: Request,
                             queueClass: Option<string>, llmQueueClass: Option<string>)
    requires WellFormedRequest(a) && WellFormedRequest(b) && id !in s.runs && RunLifecycle.UniqueActive(s.runs)
    ensures var step := CreateRun(id, NewRow(a, queueClass, llmQueueClass, s.now));
            var idle := forall x :: x in s.runs ==> !ActiveFor(s.runs[x], a);
            && Enabled(cfg, s, step)
            && Apply(cfg, s, step).runs == (if idle then s.runs[id := step.row] else s.runs)
            && (idle && SameRequest(a, b) ==>
                  forall x :: x in Apply(cfg, s, step).runs ==> (ActiveFor(Apply(cfg, s, step).runs[x], b) <==> x == id))
  {
    var row := NewRow(a, queueClass, llmQueueClass, s.now);
    NewRowServes(a, b, queueClass, llmQueueClass, s.now);
    forall x | x in s.runs
      ensures Collides(s.runs[x], a.tenant, Some(DedupeKey(a))) <==> ActiveFor(s.runs[x], a)
    {
      CollidesIsActiveFor(s.runs[x], a);
    }
    if SameRequest(a, b) {
      forall x | x in s.runs
        ensures ActiveFor(s.runs[x], a) <==> ActiveFor(s.runs[x], b)
      {
        CollidesIsActiveFor(s.runs[x], a);
        CollidesIsActiveFor(s.runs[x], b);
        KeyDecidesSameness(a, b);
      }
    }
    hide ActiveFor;
    hide DedupeKey;
    hide SameRequest;
    var idle := forall x :: x in s.runs ==> !ActiveFor(s.runs[x], a);
    var runs' := Apply(cfg, s, CreateRun(id, row)).runs;
    assert InsertAllowed(s.runs, row) <==> idle;
    if idle && SameRequest(a, b) {
      forall x | x in runs'
        ensures ActiveFor(runs'[x], b) <==> x == id
      {
        assert x == id || x in s.runs;
      }
    }
  }

  /** create_run_common without interference: a new run exactly when no equivalent one is active. */
  method CreateRunCommon(store: Store, id: RunId, req: Request, queueClass: Option<string>,
                         llmQueueClass: Option<string>, now: Time) returns (outcome: Outcome)
    requires WellFormedRequest(req) && id !in store.runs
    modifies store
    ensures outcome.Rejected? <==> !Resolvable(req)
    ensures outcome.Created? <==>
              Resolvable(req) && forall x :: x in old(store.runs) ==> !ActiveFor(old(store.runs)[x], req)
    ensures outcome.Created? ==> outcome.id == id && store.runs == old(store.runs)[id := NewRow(req, queueClass, llmQueueClass, now)]
    ensures outcome.Created? ==>
              && Fresh(store.runs[id], now) && store.runs[id].tenant == req.tenant && ActiveFor(store.runs[id], req)
              && store.runs[id].queueClass == queueClass && store.runs[id].llmQueueClass == llmQueueClass
    ensures !outcome.Created? ==> store.runs == old(store.runs)
    ensures !outcome.Created? && !outcome.Rejected? ==>
              outcome.Existing? && outcome.id in store.runs && ActiveFor(store.runs[outcome.id], req)
  {
    hide DedupeKey;
    hide ActiveFor;
    hide Capabilities.Resolved;
    var granted := Capabilities.ResolveGranted(req.recipe, req.role, req.capabilities);
    if granted.Err? {
      return Rejected(granted.error);
    }
    forall x | x in store.runs
      ensures Collides(store.runs[x], req.tenant, Some(DedupeKey(req))) <==> ActiveFor(store.runs[x], req)
    {
      CollidesIsActiveFor(store.runs[x], req);
    }
    var created := store.CreateRun(id, NewRow(req, queueClass, llmQueueClass, now));
    if created {
      SameAsItself(req);
      NewRowServes(req, req, queueClass, llmQueueClass, now);
      outcome := Created(id);
    } else {
      var active := store.ActiveRunId(req.tenant, Some(DedupeKey(req)));
      outcome := if active.None? then Conflict else Existing(active.value);
    }
  }

  /** While the first run stays active, over any interleaving, an equal request inserts nothing and the
      lookup that follows can only find the first run. */
  lemma {:induction false} SecondRequestFindsFirstRun(cfg: Config, trace: seq<State>, i: nat, j: nat, a: Request, b: Request,
                                   first: RunId, row: Run)
    requires Execution(cfg, trace) && i <= j < |trace|
    requires WellFormedRequest(a) && WellFormedRequest(b) && SameRequest(a, b)
    requires first in trace[i].runs && Active(trace[i].runs[first])
    requires trace[i].runs[first].tenant == a.tenant && trace[i].runs[first].dedupeKey == Some(DedupeKey(a))
    requires first in trace[j].runs && Active(trace[j].runs[first])
    requires row.tenant == b.tenant && row.dedupeKey == Some(DedupeKey(b))
    ensures !InsertAllowed(trace[i].runs, row)
    ensures forall x :: x in trace[j].runs ==>
              (Collides(trace[j].runs[x], b.tenant, Some(DedupeKey(b))) <==> x == first)
  {
    hide DedupeKey;
    KeyDecidesSameness(a, b);
    assert Collides(trace[i].runs[first], row.tenant, row.dedupeKey);
    RunLifecycle.ColumnsFixed(cfg, trace, i, j, first);
    RunLifecycle.ActiveKeysUnique(cfg, trace, j);
  }
}
