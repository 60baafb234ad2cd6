// "apply, then plan: nothing left to do". Not unconditionally: exactly when the metadata parses,
// the scanned page has room for what is created, the cap the manifest states neither cuts nor
// uncovers a profile the plan took as it was, and declarations of one name agree.
module ManifestConvergence {
  import opened Prelude
  import opened ManifestTypes
  import opened ManifestOrder
  import opened Tenant
  import opened ManifestPlan
  import opened ManifestApply
  import opened ManifestNetwork
  import opened ManifestNamed
  import opened ManifestBindings
  import opened ManifestPerform
  import opened ManifestRun
  import opened ManifestLanded
  import opened ManifestSettle

  // ---- the conditions, each readable off the manifest and the plan ----

  predicate MetadataOk(m: Manifest) { forall e :: e in m ==> MetadataParses(e) }

  // How many rows of a kind the changes create.
  function Creates(cs: seq<PlannedChange>, kind: Kind): nat
  {
    if cs == [] then 0
    else (if cs[0].entity.kind == kind && cs[0].action.Create? then 1 else 0) + Creates(cs[1..], kind)
  }

  // The page holds what there is and what will be created.
  predicate Room(t: TenantState, cs: seq<PlannedChange>, kind: Kind)
  {
    Creates(cs, kind) == 0 || |Table(t, kind)| + Creates(cs, kind) <= SCAN_LIMIT
  }

  predicate PageRoom(t: TenantState, cs: seq<PlannedChange>)
  {
    forall k :: !IsNetwork(k) ==> Room(t, cs, k)
  }

  // A profile planned Unchanged, against the cap the manifest states: a clamped read stays as it
  // is only if the cap does; any other, only if the timeout is within the cap.
  predicate CapKeeps(t: TenantState, c: PlannedChange, cap: int)
  {
    c.entity.kind.NetworkProfile? && c.action.Unchanged? && c.readProfile.Some? && c.entity.profile.Some? ==>
      if c.readProfile.value.clamped then cap == t.policy.cap
      else c.entity.profile.value.sessionTimeout <= cap
  }

  ghost predicate CapStable(m: Manifest, t: TenantState, cs: seq<PlannedChange>)
  {
    forall c, p :: c in cs && p in m && p.kind.NetworkPolicy? && p.policyCap.Some? ==>
      CapKeeps(t, c, p.policyCap.value)
  }

  // ---- rows created under one name ----

  predicate Twins(cs: seq<PlannedChange>, i: nat, j: nat)
    requires i < |cs| && j < |cs|
  {
    i != j && cs[i].action.Create? && cs[j].action.Create? && SameName(cs[i].entity, cs[j].entity)
  }

  predicate HasTwin(cs: seq<PlannedChange>, i: nat)
    requires i < |cs|
  {
    exists j :: 0 <= j < |cs| && Twins(cs, i, j)
  }

  // Only resources are created twice under one name, and no binding is narrowed to an earlier one.
  ghost predicate TwinsUnbound(m: Manifest, cs: seq<PlannedChange>)
  {
    forall i, j :: 0 <= i < j < |cs| && Twins(cs, i, j) ==>
      cs[i].entity.kind.Resource? && !Narrows(m, cs[i].entity.key)
  }

  // What the plan found: a Create found no row of the name, and a subject in order had the
  // resources of its bindings.
  ghost predicate PlannedFrom(m: Manifest, t0: TenantState, cs: seq<PlannedChange>)
  {
    && (forall i :: 0 <= i < |cs| && !IsNetwork(cs[i].entity.kind) ==>
          (cs[i].action.Create? <==> LocatedId(t0, cs[i].entity.kind, MatchName(cs[i].entity)).None?))
    && (forall i, j :: 0 <= i < |cs| && IsSubject(cs[i].entity.kind) && cs[i].action.Unchanged? && 0 <= j < |cs[i].entity.roles| ==>
          var name := ResourceName(m, cs[i].entity.roles[j]);
          name.Some? ==> LocatedId(t0, Resource, name.value).Some?)
  }

  // ---- the loop ----

  ghost predicate NamedLanded(m: Manifest, cs: seq<PlannedChange>, n: nat, t: TenantState)
    requires PlanOf(m, cs)
  {
    forall i :: 0 <= i < |cs| && Past(cs, n, i) && !IsNetwork(cs[i].entity.kind) && !HasTwin(cs, i) ==>
      Settled(m, t, cs[i].entity)
  }

  // What is still to be created has no id yet.
  ghost predicate NotYet(cs: seq<PlannedChange>, k: nat, resolved: ResolvedIds)
  {
    forall i :: k <= i < |cs| && !IsNetwork(cs[i].entity.kind) && cs[i].id.None? ==>
      (cs[i].entity.kind, cs[i].entity.key) !in resolved
  }

  ghost predicate LoopInv(m: Manifest, t0: TenantState, cs: seq<PlannedChange>, k: nat, run: Run)
  {
    var t := run.world.tenant;
    && RunInv(m, cs, k, run) && NamedWf(t) && NamesAgree(m) && MetadataOk(m)
    && TwinsUnbound(m, cs) && PlannedFrom(m, t0, cs)
    && (forall i :: k <= i < |cs| ==> NamedConsistent(t, cs[i]))
    && NamedSound(m, t, run.resolved) && NotYet(cs, k, run.resolved)
    && (forall kind :: !IsNetwork(kind) ==> Room(t, cs[k..], kind))
    && NetworkLanded(m, t0, cs, k, t) && NamedLanded(m, cs, k, t)
  }

  // Entities of one name were planned alike.
  lemma PlannedAlike(m: Manifest, t0: TenantState, cs: seq<PlannedChange>, i: nat, j: nat)
    requires PlanOf(m, cs) && PlannedFrom(m, t0, cs) && i < |cs| && j < |cs| && SameName(cs[i].entity, cs[j].entity)
    ensures cs[i].action.Create? <==> cs[j].action.Create?
  {
  }

  // Resources come before the subjects whose bindings are narrowed to them, so no step takes the
  // name of a resource from a subject that is in order.
  lemma NoneOverridden(m: Manifest, t0: TenantState, cs: seq<PlannedChange>, k: nat, i: nat, j: nat,
                       t: TenantState, t': TenantState)
    requires PlanOf(m, cs) && PlannedFrom(m, t0, cs) && k < |cs| && i < |cs| && i != k && Past(cs, k, i)
    requires IsSubject(cs[i].entity.kind) && j < |cs[i].entity.roles| && OnlyCreatesAdd(t, t', cs[k])
    ensures !OverridesNarrowed(m, t, t', cs[k].entity, cs[i].entity.roles[j])
  {
    if i < k {
      OrderedSpec(m);
      assert Less(m, Ordered(m)[i], Ordered(m)[k]);
    }
  }

  // A Create takes its name from no resolved resource that a binding needs.
  lemma CreateSpares(m: Manifest, t0: TenantState, cs: seq<PlannedChange>, k: nat, resolved: ResolvedIds)
    requires PlanOf(m, cs) && PlannedFrom(m, t0, cs) && TwinsUnbound(m, cs) && k < |cs| && NotYet(cs, k, resolved)
    ensures Spares(m, resolved, cs[k])
  {
    if cs[k].action.Create? {
      forall e | e in m && e.kind.Resource? && e != cs[k].entity && SameName(e, cs[k].entity) && (Resource, e.key) in resolved
        ensures !Narrows(m, e.key)
      {
        OrderedSpec(m);
        var i :| 0 <= i < |cs| && Ordered(m)[i] == e;
        PlannedAlike(m, t0, cs, i, k);
        assert i < k && Twins(cs, i, k);
      }
    }
  }

  lemma NotYetNext(m: Manifest, cs: seq<PlannedChange>, k: nat, resolved: ResolvedIds, resolved': ResolvedIds)
    requires PlanOf(m, cs) && k < |cs| && NotYet(cs, k, resolved)
    requires forall key :: key in resolved' && !IsNetwork(key.0) ==> key in resolved || key == (cs[k].entity.kind, cs[k].entity.key)
    ensures NotYet(cs, k + 1, resolved')
  {
    PlanKeysApart(m, cs);
  }

  lemma CreatesStep(cs: seq<PlannedChange>, k: nat, kind: Kind)
    requires k < |cs|
    ensures Creates(cs[k..], kind) ==
            (if cs[k].entity.kind == kind && cs[k].action.Create? then 1 else 0) + Creates(cs[k + 1..], kind)
  {
    assert cs[k..][0] == cs[k] && cs[k..][1..] == cs[k + 1..];
  }

  // A network step leaves the named tables alone.
  lemma NetworkStepTables(m: Manifest, t: TenantState, t': TenantState, e: Entity)
    requires HasSpec(e) && IsNetwork(e.kind) && NetworkStep(m, t, t', e)
    ensures forall k :: Table(t', k) == Table(t, k)
    ensures t'.bindings == t.bindings && t.nextId <= t'.nextId
  {
  }

  lemma TablesSameWf(t: TenantState, t': TenantState)
    requires forall k :: Table(t', k) == Table(t, k)
    requires t'.bindings == t.bindings && t.nextId <= t'.nextId && NamedWf(t)
    ensures NamedWf(t')
  {
    forall k ensures RowsWf(Table(t', k), t'.nextId) {
      assert RowsWf(Table(t, k), t.nextId);
    }
    assert Table(t', Role) == t'.roles && Table(t, Role) == t.roles;
  }

  lemma TablesSameSettled(m: Manifest, t: TenantState, t': TenantState, x: Entity)
    requires forall k :: Table(t', k) == Table(t, k)
    requires t'.bindings == t.bindings
    requires HasSpec(x) && !IsNetwork(x.kind) && Settled(m, t, x)
    ensures Settled(m, t', x)
  {
    assert Table(t', Role) == t'.roles && Table(t, Role) == t.roles;
    assert Table(t', ServiceAccount) == t'.accounts && Table(t, ServiceAccount) == t.accounts;
    assert Table(t', x.kind) == Table(t, x.kind);
    if IsSubject(x.kind) {
      var s := Subject(x.kind, Table(t, x.kind)[Locate(t, x.kind, MatchName(x)).value].id);
      forall i | 0 <= i < |x.roles| ensures BindingHeld(m, t', s, x.roles[i]) {
        assert BindingHeld(m, t, s, x.roles[i]);
        assert Table(t', Resource) == Table(t, Resource);
      }
    }
  }

  lemma TablesSameFound(m: Manifest, t: TenantState, t': TenantState)
    requires forall k :: Table(t', k) == Table(t, k)
    ensures forall c :: NamedConsistent(t, c) ==> NamedConsistent(t', c)
    ensures forall resolved :: NamedSound(m, t, resolved) ==> NamedSound(m, t', resolved)
  {
    assert Table(t', ServiceAccount) == t'.accounts && Table(t, ServiceAccount) == t.accounts;
  }

  // What performing change k leaves of the named kinds, whether it fails or not.
  lemma NamedStepAt(m: Manifest, t0: TenantState, cs: seq<PlannedChange>, k: nat, run: Run)
    requires LoopInv(m, t0, cs, k, run) && k < |cs| && !IsNetwork(cs[k].entity.kind) && !cs[k].action.Unchanged?
    ensures var o := PerformNamed(m, cs[k], run);
            var t' := o.run.world.tenant;
            && NamedWf(t') && NamedLanded(m, cs, if o.failure.None? then k + 1 else k, t')
            && (forall i :: k + 1 <= i < |cs| ==> NamedConsistent(t', cs[i]))
            && (o.failure.None? ==> NamedSound(m, t', o.run.resolved) && NotYet(cs, k + 1, o.run.resolved))
            && (o.failure.None? ==> forall kind :: !IsNetwork(kind) ==> Room(t', cs[k + 1..], kind))
  {
    var c, t, o := cs[k], run.world.tenant, PerformNamed(m, cs[k], run);
    var t' := o.run.world.tenant;
    EntityAt(m, cs, k);
    PerformNamedOutcome(m, c, run);
    forall i | k + 1 <= i < |cs| ensures NamedConsistent(t', cs[i]) {
      if SameName(cs[i].entity, c.entity) { PlannedAlike(m, t0, cs, i, k); assert cs[k].action.Create? ==> Twins(cs, k, i); }
      NamedConsistentFrame(t, t', cs[i], c);
    }
    forall i | 0 <= i < |cs| && Past(cs, k, i) && !IsNetwork(cs[i].entity.kind) && !HasTwin(cs, i)
      ensures Settled(m, t', cs[i].entity)
    {
      LandedStays(m, t0, cs, k, run, i);
    }
    if o.failure.None? {
      NamedDoneAt(m, t0, cs, k, run);
    }
  }

  lemma LandedStays(m: Manifest, t0: TenantState, cs: seq<PlannedChange>, k: nat, run: Run, i: nat)
    requires LoopInv(m, t0, cs, k, run) && k < |cs| && !IsNetwork(cs[k].entity.kind) && !cs[k].action.Unchanged?
    requires i < |cs| && Past(cs, k, i) && !IsNetwork(cs[i].entity.kind) && !HasTwin(cs, i)
    ensures HasSpec(cs[i].entity) && Settled(m, PerformNamed(m, cs[k], run).run.world.tenant, cs[i].entity)
  {
    var e, c, t := cs[i].entity, cs[k], run.world.tenant;
    var t' := PerformNamed(m, c, run).run.world.tenant;
    EntityAt(m, cs, i);
    EntityAt(m, cs, k);
    PerformNamedOutcome(m, c, run);
    if SameName(e, c.entity) {
      PlannedAlike(m, t0, cs, i, k);
      assert !Twins(cs, i, k);
      assert FieldsAgree(e, c.entity) && BindingsAgree(m, e, c.entity);
      SharedStays(m, c, run, e);
    } else {
      if IsSubject(e.kind) {
        forall j | 0 <= j < |e.roles| ensures !OverridesNarrowed(m, t, t', c.entity, e.roles[j]) {
          NoneOverridden(m, t0, cs, k, i, j, t, t');
        }
      }
      SettledFrame(m, t, t', e, c.entity);
    }
  }

  lemma NamedDoneAt(m: Manifest, t0: TenantState, cs: seq<PlannedChange>, k: nat, run: Run)
    requires LoopInv(m, t0, cs, k, run) && k < |cs| && !IsNetwork(cs[k].entity.kind) && !cs[k].action.Unchanged?
    requires PerformNamed(m, cs[k], run).failure.None?
    ensures var o := PerformNamed(m, cs[k], run);
            var t' := o.run.world.tenant;
            && HasSpec(cs[k].entity) && Settled(m, t', cs[k].entity) && NamedSound(m, t', o.run.resolved)
            && NotYet(cs, k + 1, o.run.resolved)
            && (forall kind :: !IsNetwork(kind) ==> Room(t', cs[k + 1..], kind))
  {
    var c, t, o := cs[k], run.world.tenant, PerformNamed(m, cs[k], run);
    EntityAt(m, cs, k);
    PerformNamedOutcome(m, c, run);
    CreatesStep(cs, k, c.entity.kind);
    assert Room(t, cs[k..], c.entity.kind);
    assert BindingsAgree(m, c.entity, c.entity);
    CreateSpares(m, t0, cs, k, run.resolved);
    NotYetNext(m, cs, k, run.resolved, o.run.resolved);
    PerformNamedSettles(m, c, run);
    forall kind | !IsNetwork(kind) ensures Room(o.run.world.tenant, cs[k + 1..], kind) {
      CreatesStep(cs, k, kind);
      assert Room(t, cs[k..], kind);
    }
  }

  // What a network change leaves of the named kinds.
  lemma NetworkStepAt(m: Manifest, t0: TenantState, cs: seq<PlannedChange>, k: nat, run: Run, o: Outcome)
    requires LoopInv(m, t0, cs, k, run) && k < |cs| && IsNetwork(cs[k].entity.kind) && !cs[k].action.Unchanged?
    requires HasSpec(cs[k].entity) && StepGood(m, run, cs[k], o) && NamedKept(run, o)
    ensures var t' := o.run.world.tenant;
            && NamedWf(t') && NamedLanded(m, cs, if o.failure.None? then k + 1 else k, t')
            && (forall i :: k + 1 <= i < |cs| ==> NamedConsistent(t', cs[i]))
            && NamedSound(m, t', o.run.resolved) && NotYet(cs, k + 1, o.run.resolved)
            && (forall kind :: !IsNetwork(kind) ==> Room(t', cs[k + 1..], kind))
  {
    var t, t' := run.world.tenant, o.run.world.tenant;
    NetworkStepTables(m, t, t', cs[k].entity);
    TablesSameWf(t, t');
    TablesSameFound(m, t, t');
    forall i | 0 <= i < |cs| && Past(cs, k, i) && !IsNetwork(cs[i].entity.kind) && !HasTwin(cs, i)
      ensures Settled(m, t', cs[i].entity)
    {
      TablesSameSettled(m, t, t', cs[i].entity);
    }
    NotYetNext(m, cs, k, run.resolved, o.run.resolved);
    assert NamedSound(m, t', o.run.resolved) by {
      assert NamedSound(m, t', run.resolved);
    }
    forall kind | !IsNetwork(kind) ensures Room(t', cs[k + 1..], kind) {
      CreatesStep(cs, k, kind);
      assert Room(t, cs[k..], kind);
    }
  }

  lemma LoopSkip(m: Manifest, t0: TenantState, cs: seq<PlannedChange>, k: nat, run: Run)
    requires LoopInv(m, t0, cs, k, run) && k < |cs| && cs[k].action.Unchanged?
    ensures LoopInv(m, t0, cs, k + 1, run)
  {
    RunInvSkip(m, cs, k, run);
    NetworkLandedSkip(m, t0, cs, k, run.world.tenant);
    forall kind | !IsNetwork(kind) ensures Room(run.world.tenant, cs[k + 1..], kind) {
      CreatesStep(cs, k, kind);
      assert Room(run.world.tenant, cs[k..], kind);
    }
  }

  // What holds at the end of a run that got n changes far.
  ghost predicate LandedAt(m: Manifest, t0: TenantState, cs: seq<PlannedChange>, n: nat, t: TenantState)
    requires PlanOf(m, cs)
  {
    NetworkLanded(m, t0, cs, n, t) && NamedLanded(m, cs, n, t) && NamedWf(t) && NetworkWf(t)
  }

  lemma LoopStep(m: Manifest, t0: TenantState, cs: seq<PlannedChange>, k: nat, run: Run)
    requires LoopInv(m, t0, cs, k, run) && k < |cs| && !cs[k].action.Unchanged?
    ensures var o := Perform(m, cs[k], run);
            && (o.failure.None? ==> LoopInv(m, t0, cs, k + 1, o.run))
            && (o.failure.Some? ==> LandedAt(m, t0, cs, k, o.run.world.tenant))
            && o.change.entity == cs[k].entity
  {
    NetworkLandedStep(m, t0, cs, k, run);
    PerformKeepsEntity(m, cs[k], run);
    if IsNetwork(cs[k].entity.kind) {
      LoopNetworkStep(m, t0, cs, k, run);
    } else {
      LoopNamedStep(m, t0, cs, k, run);
    }
  }

  lemma LoopNetworkStep(m: Manifest, t0: TenantState, cs: seq<PlannedChange>, k: nat, run: Run)
    requires LoopInv(m, t0, cs, k, run) && k < |cs| && !cs[k].action.Unchanged? && IsNetwork(cs[k].entity.kind)
    requires var o := Perform(m, cs[k], run);
             StepGood(m, run, cs[k], o) && NetworkLanded(m, t0, cs, if o.failure.None? then k + 1 else k, o.run.world.tenant)
    ensures var o := Perform(m, cs[k], run);
            && (o.failure.None? ==> LoopInv(m, t0, cs, k + 1, o.run))
            && (o.failure.Some? ==> LandedAt(m, t0, cs, k, o.run.world.tenant))
  {
    var o := Perform(m, cs[k], run);
    NetworkKeepsNamed(m, cs[k], run);
    NetworkStepAt(m, t0, cs, k, run, o);
    if o.failure.None? { RunInvNext(m, cs, k, run, o); }
  }

  lemma LoopNamedStep(m: Manifest, t0: TenantState, cs: seq<PlannedChange>, k: nat, run: Run)
    requires LoopInv(m, t0, cs, k, run) && k < |cs| && !cs[k].action.Unchanged? && !IsNetwork(cs[k].entity.kind)
    requires var o := Perform(m, cs[k], run);
             StepGood(m, run, cs[k], o) && NetworkLanded(m, t0, cs, if o.failure.None? then k + 1 else k, o.run.world.tenant)
    ensures var o := Perform(m, cs[k], run);
            && (o.failure.None? ==> LoopInv(m, t0, cs, k + 1, o.run))
            && (o.failure.Some? ==> LandedAt(m, t0, cs, k, o.run.world.tenant))
  {
    NamedStepAt(m, t0, cs, k, run);
    var o := Perform(m, cs[k], run);
    if o.failure.None? { RunInvNext(m, cs, k, run, o); }
  }

  predicate AppliedWithin(applied: seq<PlannedChange>, cs: seq<PlannedChange>, k: nat, n: nat)
  {
    n <= |cs| && forall c :: c in applied ==> exists i :: k <= i < n && cs[i].entity == c.entity
  }

  // A run from change k that got n changes far, everything before that in order.
  ghost predicate EndsAt(m: Manifest, t0: TenantState, cs: seq<PlannedChange>, k: nat, n: nat, end: (Run, Report))
  {
    && PlanOf(m, cs) && k <= n <= |cs|
    && LandedAt(m, t0, cs, n, end.0.world.tenant)
    && (end.1.Complete() ==> n == |cs|)
    && AppliedWithin(end.1.applied, cs, k, n)
  }

  lemma EndsAfter(m: Manifest, t0: TenantState, cs: seq<PlannedChange>, k: nat, n: nat, c: PlannedChange, end: (Run, Report))
    requires EndsAt(m, t0, cs, k + 1, n, end) && k < |cs| && c.entity == cs[k].entity
    ensures EndsAt(m, t0, cs, k, n, (end.0, end.1.(applied := [c] + end.1.applied)))
    ensures EndsAt(m, t0, cs, k, n, end)
  {
  }

  // Everything applied or found in order stays in order to the end of the run, wherever it stops.
  lemma {:induction false} LoopRuns(m: Manifest, t0: TenantState, cs: seq<PlannedChange>, k: nat, run: Run)
    returns (n: nat)
    requires LoopInv(m, t0, cs, k, run)
    requires forall c :: c in Pending(cs[k..]) ==> Plannable(c)
    ensures EndsAt(m, t0, cs, k, n, ApplySeq(m, Pending(cs[k..]), run))
    decreases |cs| - k
  {
    if k == |cs| { return k; }
    PendingStep(cs, k);
    if cs[k].action.Unchanged? {
      LoopSkip(m, t0, cs, k, run);
      n := LoopRuns(m, t0, cs, k + 1, run);
      EndsAfter(m, t0, cs, k, n, cs[k], ApplySeq(m, Pending(cs[k + 1..]), run));
    } else {
      var o := Perform(m, cs[k], run);
      LoopStep(m, t0, cs, k, run);
      assert Pending(cs[k..])[1..] == Pending(cs[k + 1..]);
      if o.failure.Some? { return k; }
      n := LoopRuns(m, t0, cs, k + 1, o.run);
      EndsAfter(m, t0, cs, k, n, o.change, ApplySeq(m, Pending(cs[k + 1..]), o.run));
    }
  }

  lemma PerformKeepsEntity(m: Manifest, c: PlannedChange, run: Run)
    requires Plannable(c)
    ensures Perform(m, c, run).change.entity == c.entity
  {
  }
}
