// In-flight limits over every mix of dispatches, claims, finishes and requeues.
module TriggerCaps {
  import opened Prelude
  import opened RunTable
  import opened TriggerTable
  import opened TriggerProtocol

  /** The ledger explains every triggered run, in every execution. */
  lemma {:induction false} LedgerHolds(env: Env, states: seq<Db>, steps: seq<Step>, i: nat)
    requires Execution(env, states, steps) && i < |states|
    ensures LedgerInv(states[i])
  {
    hide Enabled;
    hide Apply;
    hide HasEffect;
    if i > 0 {
      LedgerHolds(env, states, steps, i - 1);
      assert StepTaken(env, states[i - 1], steps[i - 1], states[i - 1 + 1]);
      var eff := StepEffect(env, states[i - 1], steps[i - 1]);
      LedgerStep(states[i - 1], states[i], eff);
    }
  }

  predicate TriggerUnderCap(db: Db, t: TriggerId)
  {
    t in db.triggers ==> |TriggerInflight(db, t)| <= db.triggers[t].settings.maxInflight
  }

  predicate TenantUnderCap(env: Env, db: Db, tenant: Tenant)
  {
    |TenantInflight(db, tenant)| <= TenantCap(env)
  }

  // No configuration update of the trigger lowers its limit.
  predicate KeepsLimit(db: Db, step: Step, t: TriggerId)
  {
    step.Configure? && step.t == t && t in db.triggers ==> step.settings.maxInflight >= db.triggers[t].settings.maxInflight
  }

  // Nothing but triggers creates runs for the tenant.
  predicate NotFedByApi(step: Step, tenant: Tenant)
  {
    step.ApiCreate? ==> step.runRow.tenant != tenant
  }

  // Only a firing of the trigger itself adds to its count, and then one.
  lemma {:induction false} TriggerGrowth(db: Db, db': Db, eff: Effect, t: TriggerId)
    requires LedgerInv(db) && HasEffect(db, db', eff)
    ensures |TriggerInflight(db', t)| <= |TriggerInflight(db, t)| + if eff.Fired? && eff.origin.trigger == t then 1 else 0
  {
    hide OriginKey;
    var before, after := TriggerInflight(db, t), TriggerInflight(db', t);
    forall k | k in after && k in db.ledger
      ensures k in before
    {
      assert RowExplained(db, k);
      assert OriginRecorded(db, db.ledger[k].run.value);
    }
    if eff.Fired? {
      OriginKeyTrigger(eff);
      var key := OriginKey(eff.origin);
      assert after <= before + {key};
      if eff.origin.trigger == t {
        SubsetSize(after, before + {key});
      } else {
        SubsetSize(after, before);
      }
    } else {
      SubsetSize(after, before);
    }
  }

  lemma {:induction false} NewTriggerEmpty(db: Db, db': Db, t: TriggerId)
    requires LedgerInv(db) && t !in db.triggers && db'.ledger == db.ledger
    ensures TriggerInflight(db', t) == {}
  {
    forall k | k in db.ledger
      ensures k.0 != t
    {
      assert k.0 in db.triggers;
    }
  }

  lemma {:induction false} LimitStep(env: Env, db: Db, step: Step, t: TriggerId)
    requires Enabled(env, db, step) && KeepsLimit(db, step, t)
    ensures t in db.triggers ==> t in Apply(env, db, step).triggers
    ensures t in db.triggers ==>
              Apply(env, db, step).triggers[t].settings.maxInflight >= db.triggers[t].settings.maxInflight
    ensures t !in db.triggers && t in Apply(env, db, step).triggers ==>
              step.CreateTrigger? && Apply(env, db, step).triggers[t].settings.maxInflight > 0
  {
    if Some(t) != TriggerOf(step) {
      OtherTriggersKept(env, db, step, t);
    } else {
      hide HasRoom;
      hide DispatchInterval;
      hide DispatchCron;
      hide RecomputedFireAt;
      match step
      case FireInterval(_, run, offset) => IntervalTouches(db, t, run, offset);
      case FireCron(_, run, offset) => CronTouches(env, db, t, run, offset);
      case _ =>
    }
  }

  lemma {:induction false} TriggerCapStep(env: Env, db: Db, step: Step, t: TriggerId)
    requires Enabled(env, db, step) && LedgerInv(db) && KeepsLimit(db, step, t) && TriggerUnderCap(db, t)
    ensures TriggerUnderCap(Apply(env, db, step), t)
  {
    hide Enabled;
    hide Apply;
    var db' := Apply(env, db, step);
    var eff := StepEffect(env, db, step);
    LimitStep(env, db, step, t);
    if t in db.triggers {
      TriggerGrowth(db, db', eff, t);
    } else if t in db'.triggers {
      NewTriggerEmpty(db, db', t);
    }
  }

  lemma {:induction false} ApiRunsElsewhere(env: Env, db: Db, step: Step, tenant: Tenant)
    requires Enabled(env, db, step) && !IsFire(step) && NotFedByApi(step, tenant)
    ensures TenantInflight(Apply(env, db, step), tenant) <= TenantInflight(db, tenant)
  {
    var db' := Apply(env, db, step);
    if IsRunStep(step) {
      RunEffect(env, db, step);
    } else {
      TableEffect(env, db, step);
    }
  }

  // Only a firing for the tenant adds to its count, and then one.
  lemma {:induction false} TenantGrowth(db: Db, db': Db, eff: Effect, tenant: Tenant)
    requires HasEffect(db, db', eff) && (eff.Quiet? ==> db' == db)
    ensures |TenantInflight(db', tenant)| <= |TenantInflight(db, tenant)| +
              if eff.Fired? && db.triggers[eff.origin.trigger].tenant == tenant then 1 else 0
  {
    hide OriginKey;
    hide TriggersEvolve;
    var before, after := TenantInflight(db, tenant), TenantInflight(db', tenant);
    if eff.Fired? && db.triggers[eff.origin.trigger].tenant == tenant {
      assert after <= before + {eff.run};
      SubsetSize(after, before + {eff.run});
    } else {
      assert after <= before;
      SubsetSize(after, before);
    }
  }

  lemma {:induction false} TenantCapStep(env: Env, db: Db, step: Step, tenant: Tenant)
    requires Enabled(env, db, step) && LedgerInv(db) && NotFedByApi(step, tenant) && TenantUnderCap(env, db, tenant)
    ensures TenantUnderCap(env, Apply(env, db, step), tenant)
  {
    hide Enabled;
    hide Apply;
    hide TenantInflight;
    var db' := Apply(env, db, step);
    if !IsFire(step) {
      ApiRunsElsewhere(env, db, step, tenant);
      SubsetSize(TenantInflight(db', tenant), TenantInflight(db, tenant));
    } else {
      var eff := StepEffect(env, db, step);
      TenantGrowth(db, db', eff, tenant);
    }
  }

  /** No execution that keeps the limits takes a trigger above its max_inflight_runs. */
  lemma {:induction false} TriggerCapHolds(env: Env, states: seq<Db>, steps: seq<Step>, i: nat, t: TriggerId)
    requires Execution(env, states, steps) && i < |states|
    requires forall k :: 0 <= k < i ==> KeepsLimit(states[k], steps[k], t)
    ensures TriggerUnderCap(states[i], t)
  {
    hide Enabled;
    hide Apply;
    if i > 0 {
      TriggerCapHolds(env, states, steps, i - 1, t);
      LedgerHolds(env, states, steps, i - 1);
      assert StepTaken(env, states[i - 1], steps[i - 1], states[i - 1 + 1]);
      TriggerCapStep(env, states[i - 1], steps[i - 1], t);
    }
  }

  /** A tenant fed only by triggers never has more queued or running runs than the tenant cap. */
  lemma {:induction false} TenantCapHolds(env: Env, states: seq<Db>, steps: seq<Step>, i: nat, tenant: Tenant)
    requires Execution(env, states, steps) && i < |states|
    requires forall k :: 0 <= k < i ==> NotFedByApi(steps[k], tenant)
    ensures TenantUnderCap(env, states[i], tenant)
  {
    hide Enabled;
    hide Apply;
    if i == 0 {
      assert TenantInflight(states[0], tenant) == {};
    } else {
      TenantCapHolds(env, states, steps, i - 1, tenant);
      LedgerHolds(env, states, steps, i - 1);
      assert StepTaken(env, states[i - 1], steps[i - 1], states[i - 1 + 1]);
      TenantCapStep(env, states[i - 1], steps[i - 1], tenant);
    }
  }

  /** Distinct runs: each triggered run is counted once, by its own ledger row. */
  lemma {:induction false} InflightRowsAreRuns(db: Db, t: TriggerId, a: LedgerKey, b: LedgerKey)
    requires LedgerInv(db) && a in TriggerInflight(db, t) && b in TriggerInflight(db, t)
    requires db.ledger[a].run == db.ledger[b].run
    ensures a == b
  {
    assert RowExplained(db, a) && RowExplained(db, b);
  }
}
