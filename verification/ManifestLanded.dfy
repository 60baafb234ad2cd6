// What a run of apply has settled stays settled: the loop invariant behind convergence.
module ManifestLanded {
  import opened Prelude
  import opened ManifestTypes
  import opened ManifestOrder
  import opened Tenant
  import opened ManifestPlan
  import opened ManifestApply
  import opened ManifestNetwork
  import opened ManifestNamed
  import opened ManifestBindings
  import opened ManifestPerform
  import opened ManifestRun

  // Change i is done once n changes are, or needed nothing.
  predicate Past(cs: seq<PlannedChange>, n: nat, i: nat)
    requires i < |cs|
  {
    i < n || cs[i].action.Unchanged?
  }

  // ---- the network kinds ----

  ghost predicate NetworkPast(m: Manifest, t0: TenantState, c: PlannedChange, t: TenantState)
    requires HasSpec(c.entity)
  {
    if c.entity.kind.NetworkProfile? && c.action.Unchanged?
    then ProfileRowOf(m, t, c.entity).Some? && ProfileRowOf(m, t, c.entity) == ProfileRowOf(m, t0, c.entity)
    else NetworkDone(m, t, c.entity)
  }

  ghost predicate NetworkLanded(m: Manifest, t0: TenantState, cs: seq<PlannedChange>, n: nat, t: TenantState)
    requires PlanOf(m, cs)
  {
    && (forall i :: 0 <= i < |cs| && Past(cs, n, i) ==> NetworkPast(m, t0, cs[i], t))
    && ((forall i :: 0 <= i < n && i < |cs| && cs[i].entity.kind.NetworkPolicy? ==> cs[i].action.Unchanged?) ==>
          t.policy == t0.policy)
  }

  lemma PlannedUnchangedPast(m: Manifest, t: TenantState, e: Entity, c: PlannedChange)
    requires Declared(m, e) && PlanEntity(m, t, e) == Ok(c) && c.action.Unchanged?
    ensures NetworkPast(m, t, c, t)
  {
  }

  lemma NetworkLandedStart(m: Manifest, t: TenantState, cs: seq<PlannedChange>)
    requires Plan(m, t) == Ok(cs) && PlanOf(m, cs)
    ensures NetworkLanded(m, t, cs, 0, t)
  {
    forall i | 0 <= i < |cs| && Past(cs, 0, i) ensures NetworkPast(m, t, cs[i], t) {
      EntityAt(m, cs, i);
      PlannedUnchangedPast(m, t, cs[i].entity, cs[i]);
    }
  }

  // A profile already written is followed by profiles only, so the cap stays.
  lemma AfterProfile(m: Manifest, cs: seq<PlannedChange>, i: nat, k: nat)
    requires PlanOf(m, cs) && i < k < |cs| && cs[i].entity.kind.NetworkProfile?
    ensures cs[k].entity.kind.NetworkProfile?
  {
    OrderedSpec(m);
    assert Less(m, Ordered(m)[i], Ordered(m)[k]);
  }

  lemma NetworkPastFrame(m: Manifest, t0: TenantState, cs: seq<PlannedChange>, k: nat, i: nat,
                         t: TenantState, t': TenantState)
    requires PlanOf(m, cs) && k < |cs| && i < |cs| && i != k && Past(cs, k, i)
    requires NetworkWf(t) && NetworkStep(m, t, t', cs[k].entity)
    requires NetworkPast(m, t0, cs[i], t)
    ensures NetworkPast(m, t0, cs[i], t')
  {
    EntityAt(m, cs, i);
    EntityAt(m, cs, k);
    var e, other := cs[i].entity, cs[k].entity;
    if e.kind.NetworkPolicy? {
      CoherentPair(m, e, other);
    } else if e.kind.NetworkSegment? {
      SegmentFrame(m, t, t', e, other);
    } else if e.kind.NetworkProfile? {
      ProfileFrame(m, t, t', e, other);
      if !cs[i].action.Unchanged? {
        AfterProfile(m, cs, i, k);
      }
    }
  }

  lemma NetworkLandedStep(m: Manifest, t0: TenantState, cs: seq<PlannedChange>, k: nat, run: Run)
    requires RunInv(m, cs, k, run) && k < |cs| && !cs[k].action.Unchanged?
    requires NetworkLanded(m, t0, cs, k, run.world.tenant)
    ensures var o := Perform(m, cs[k], run);
            && StepGood(m, run, cs[k], o)
            && NetworkLanded(m, t0, cs, if o.failure.None? then k + 1 else k, o.run.world.tenant)
  {
    PerformStep(m, cs, k, run);
    var o := Perform(m, cs[k], run);
    var t, t' := run.world.tenant, o.run.world.tenant;
    forall i | 0 <= i < |cs| && Past(cs, k, i) ensures NetworkPast(m, t0, cs[i], t') {
      NetworkPastFrame(m, t0, cs, k, i, t, t');
    }
    EntityAt(m, cs, k);
  }

  lemma NetworkLandedSkip(m: Manifest, t0: TenantState, cs: seq<PlannedChange>, k: nat, t: TenantState)
    requires PlanOf(m, cs) && k < |cs| && cs[k].action.Unchanged? && NetworkLanded(m, t0, cs, k, t)
    ensures NetworkLanded(m, t0, cs, k + 1, t)
  {
  }
}
