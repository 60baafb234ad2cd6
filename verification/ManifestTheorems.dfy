// The convergence theorems.
module ManifestTheorems {
  import opened Prelude
  import opened ManifestTypes
  import opened ManifestOrder
  import opened Tenant
  import opened ManifestPlan
  import opened ManifestApply
  import opened ManifestNetwork
  import opened ManifestNamed
  import opened ManifestBindings
  import opened ManifestPerform
  import opened ManifestRun
  import opened ManifestLanded
  import opened ManifestSettle
  import opened ManifestConvergence
  import opened ManifestGrow

  // A tenant as the server keeps it, read by a client that has sent nothing yet.
  ghost predicate Fresh(w: World)
  {
    NetworkWf(w.tenant) && NamedWf(w.tenant) && w.trace == []
  }

  function Seeded(w: World, cs: seq<PlannedChange>): Run
  {
    Run(w, SeedResolved(cs), SeedVersions(cs))
  }

  // ---- the start of the loop ----

  lemma PlanNamedConsistent(m: Manifest, t: TenantState, e: Entity, c: PlannedChange)
    requires PlanNamed(m, t, e) == Ok(c)
    ensures c.entity == e && c.id == LocatedId(t, e.kind, MatchName(e)) && (c.action.Create? <==> c.id.None?)
    ensures !Ambiguous(t, e) && UpdateStates(c)
  {
  }

  lemma PlannedNamed(m: Manifest, t: TenantState, e: Entity, c: PlannedChange)
    requires HasSpec(e) && PlanEntity(m, t, e) == Ok(c)
    ensures NamedConsistent(t, c) && c.entity == e
    ensures c.action.Unchanged? ==> Settled(m, t, e)
  {
    if !IsNetwork(e.kind) {
      PlanNamedConsistent(m, t, e, c);
    }
  }

  lemma PlannedAt(m: Manifest, w: World, cs: seq<PlannedChange>, i: nat)
    requires Plan(m, w.tenant) == Ok(cs) && i < |cs|
    ensures PlanOf(m, cs) && cs[i].entity in m && Declared(m, cs[i].entity)
    ensures PlanEntity(m, w.tenant, cs[i].entity) == Ok(cs[i])
    ensures NamedConsistent(w.tenant, cs[i])
    ensures cs[i].action.Unchanged? ==> Settled(m, w.tenant, cs[i].entity)
  {
    PlanIsPlanOf(m, w.tenant);
    EntityAt(m, cs, i);
    OrderedSpecs(m);
    assert PlanEntity(m, w.tenant, Ordered(m)[i]) == Ok(cs[i]);
    PlannedNamed(m, w.tenant, cs[i].entity, cs[i]);
  }

  lemma IndexInPlan(m: Manifest, w: World, cs: seq<PlannedChange>, e: Entity) returns (i: nat)
    requires Plan(m, w.tenant) == Ok(cs) && e in m
    ensures i < |cs| && cs[i].entity == e
  {
    PlanIsPlanOf(m, w.tenant);
    OrderedSpec(m);
    i :| 0 <= i < |cs| && Ordered(m)[i] == e;
  }

  lemma SettledHolds(m: Manifest, t: TenantState, e: Entity)
    requires HasSpec(e) && Settled(m, t, e) && IsSubject(e.kind)
    ensures LocatedId(t, e.kind, MatchName(e)).Some?
    ensures BindingsHeld(m, t, Subject(e.kind, LocatedId(t, e.kind, MatchName(e)).value), e.roles)
  {
  }

  lemma HeldResource(m: Manifest, t: TenantState, s: Subject, b: RoleBinding)
    requires BindingOk(m, b) && BindingHeld(m, t, s, b) && ResourceName(m, b).Some?
    ensures LocatedId(t, Resource, ResourceName(m, b).value).Some?
  {
  }

  lemma PlanFinds(m: Manifest, w: World, cs: seq<PlannedChange>)
    requires Plan(m, w.tenant) == Ok(cs)
    ensures PlanOf(m, cs) && PlannedFrom(m, w.tenant, cs)
  {
    PlanIsPlanOf(m, w.tenant);
    forall i | 0 <= i < |cs| && !IsNetwork(cs[i].entity.kind)
      ensures cs[i].action.Create? <==> LocatedId(w.tenant, cs[i].entity.kind, MatchName(cs[i].entity)).None?
    {
      PlannedAt(m, w, cs, i);
      PlanNamedConsistent(m, w.tenant, cs[i].entity, cs[i]);
    }
    forall i, j | 0 <= i < |cs| && IsSubject(cs[i].entity.kind) && cs[i].action.Unchanged? && 0 <= j < |cs[i].entity.roles|
                  && ResourceName(m, cs[i].entity.roles[j]).Some?
      ensures LocatedId(w.tenant, Resource, ResourceName(m, cs[i].entity.roles[j]).value).Some?
    {
      var e := cs[i].entity;
      PlannedAt(m, w, cs, i);
      SettledHolds(m, w.tenant, e);
      assert EntityOk(m, e) && BindingOk(m, e.roles[j]);
      HeldResource(m, w.tenant, Subject(e.kind, LocatedId(w.tenant, e.kind, MatchName(e)).value), e.roles[j]);
    }
  }

  lemma SeedSound(m: Manifest, w: World, cs: seq<PlannedChange>)
    requires Plan(m, w.tenant) == Ok(cs)
    ensures NamedSound(m, w.tenant, SeedResolved(cs)) && NotYet(cs, 0, SeedResolved(cs))
  {
    PlanIsPlanOf(m, w.tenant);
    PlanKeysApart(m, cs);
    SeedResolvedKeys(cs);
    forall e | e in m && !IsNetwork(e.kind) && (e.kind, e.key) in SeedResolved(cs) && (e.kind.Resource? ==> Narrows(m, e.key))
      ensures LocatedId(w.tenant, e.kind, MatchName(e)) == Some(SeedResolved(cs)[(e.kind, e.key)])
    {
      var i := IndexInPlan(m, w, cs, e);
      PlannedAt(m, w, cs, i);
      assert cs[i].id.Some?;
    }
  }

  lemma LoopStart(m: Manifest, w: World, cs: seq<PlannedChange>)
    requires Fresh(w) && Plan(m, w.tenant) == Ok(cs)
    requires TwinsUnbound(m, cs) && NamesAgree(m) && MetadataOk(m) && PageRoom(w.tenant, cs)
    ensures LoopInv(m, w.tenant, cs, 0, Seeded(w, cs))
  {
    RunInvStart(m, w, cs);
    SeedSound(m, w, cs);
    PlanFinds(m, w, cs);
    NetworkLandedStart(m, w.tenant, cs);
    assert cs[0..] == cs;
    forall i | 0 <= i < |cs| ensures NamedConsistent(w.tenant, cs[i])
      ensures Past(cs, 0, i) ==> Settled(m, w.tenant, cs[i].entity)
    {
      PlannedAt(m, w, cs, i);
    }
  }

  // ---- the end of the loop ----

  // The cap a run ends with: the manifest's once its policy change is done, the old one before.
  lemma FinalCap(m: Manifest, t0: TenantState, cs: seq<PlannedChange>, n: nat, t: TenantState)
    requires PlanOf(m, cs) && NetworkLanded(m, t0, cs, n, t) && n <= |cs|
    ensures || t.policy.cap == t0.policy.cap
            || exists p :: p in m && p.kind.NetworkPolicy? && p.policyCap == Some(t.policy.cap)
  {
    if i :| 0 <= i < n && cs[i].entity.kind.NetworkPolicy? && !cs[i].action.Unchanged? {
      EntityAt(m, cs, i);
      assert Past(cs, n, i);
      assert NetworkPast(m, t0, cs[i], t);
      assert cs[i].entity in m && cs[i].entity.policyCap == Some(t.policy.cap);
    }
  }

  // An Unchanged profile against a new cap: it still reads as stated exactly when the cap keeps it.
  lemma UnchangedProfile(m: Manifest, t0: TenantState, t: TenantState, c: PlannedChange)
    requires Declared(m, c.entity) && c.entity.kind.NetworkProfile? && c.action.Unchanged?
    requires PlanEntity(m, t0, c.entity) == Ok(c)
    requires ProfileRowOf(m, t, c.entity).Some? && ProfileRowOf(m, t, c.entity) == ProfileRowOf(m, t0, c.entity)
    ensures Settled(m, t, c.entity) <==> t.policy.cap == t0.policy.cap || CapKeeps(t0, c, t.policy.cap)
  {
  }

  lemma NetworkPastSettled(m: Manifest, t0: TenantState, cs: seq<PlannedChange>, i: nat, t: TenantState)
    requires PlanOf(m, cs) && i < |cs| && PlanEntity(m, t0, cs[i].entity) == Ok(cs[i])
    requires IsNetwork(cs[i].entity.kind) && NetworkPast(m, t0, cs[i], t)
    requires t.policy.cap == t0.policy.cap || CapKeeps(t0, cs[i], t.policy.cap)
    ensures Settled(m, t, cs[i].entity)
  {
    EntityAt(m, cs, i);
    if cs[i].entity.kind.NetworkProfile? && cs[i].action.Unchanged? {
      UnchangedProfile(m, t0, t, cs[i]);
    }
  }

  lemma CapAllows(m: Manifest, t0: TenantState, cs: seq<PlannedChange>, n: nat, t: TenantState, i: nat)
    requires PlanOf(m, cs) && CapStable(m, t0, cs) && NetworkLanded(m, t0, cs, n, t) && n <= |cs| && i < |cs|
    ensures t.policy.cap == t0.policy.cap || CapKeeps(t0, cs[i], t.policy.cap)
  {
    FinalCap(m, t0, cs, n, t);
    if t.policy.cap != t0.policy.cap {
      var p :| p in m && p.kind.NetworkPolicy? && p.policyCap == Some(t.policy.cap);
      assert cs[i] in cs;
    }
  }

  lemma LandedSettled(m: Manifest, w: World, cs: seq<PlannedChange>, n: nat, t: TenantState, i: nat)
    requires Plan(m, w.tenant) == Ok(cs) && PlanOf(m, cs) && CapStable(m, w.tenant, cs)
    requires n <= |cs| && LandedAt(m, w.tenant, cs, n, t) && i < |cs| && Past(cs, n, i)
    requires IsNetwork(cs[i].entity.kind) || !HasTwin(cs, i)
    ensures HasSpec(cs[i].entity) && Settled(m, t, cs[i].entity)
  {
    PlannedAt(m, w, cs, i);
    if IsNetwork(cs[i].entity.kind) {
      CapAllows(m, w.tenant, cs, n, t, i);
      assert NetworkPast(m, w.tenant, cs[i], t);
      NetworkPastSettled(m, w.tenant, cs, i, t);
    }
  }

  // A run gets n changes far, all of them if it is complete. Whatever is past by then is in order,
  // resources that another of their name was created beside left aside.
  lemma RunLands(m: Manifest, w: World, cs: seq<PlannedChange>) returns (n: nat)
    requires Fresh(w) && Plan(m, w.tenant) == Ok(cs) && TwinsUnbound(m, cs) && NamesAgree(m)
    requires MetadataOk(m) && PageRoom(w.tenant, cs) && CapStable(m, w.tenant, cs)
    ensures var (run, report) := Apply(m, w).value;
            && n <= |cs| && (report.Complete() ==> n == |cs|) && AppliedWithin(report.applied, cs, 0, n)
            && forall i :: 0 <= i < |cs| && Past(cs, n, i) && (IsNetwork(cs[i].entity.kind) || !HasTwin(cs, i)) ==>
                 HasSpec(cs[i].entity) && Settled(m, run.world.tenant, cs[i].entity)
  {
    PlanPlannable(m, w.tenant);
    PendingElements(cs);
    LoopStart(m, w, cs);
    assert cs[0..] == cs;
    n := LoopRuns(m, w.tenant, cs, 0, Seeded(w, cs));
    var t := Apply(m, w).value.0.world.tenant;
    forall i | 0 <= i < |cs| && Past(cs, n, i) && (IsNetwork(cs[i].entity.kind) || !HasTwin(cs, i))
      ensures HasSpec(cs[i].entity) && Settled(m, t, cs[i].entity)
    {
      LandedSettled(m, w, cs, n, t, i);
    }
  }

  lemma DistinctTwinless(m: Manifest, cs: seq<PlannedChange>)
    requires NewNamesDistinct(cs)
    ensures TwinsUnbound(m, cs) && forall i :: 0 <= i < |cs| ==> !HasTwin(cs, i)
  {
  }

  // Resuming works: whatever failed and wherever the run stopped, every change that landed and
  // every entity found in order plans as Unchanged afterwards.
  lemma LandedPlansUnchanged(m: Manifest, w: World, cs: seq<PlannedChange>)
    requires Fresh(w) && Plan(m, w.tenant) == Ok(cs) && NewNamesDistinct(cs) && NamesAgree(m)
    requires MetadataOk(m) && PageRoom(w.tenant, cs) && CapStable(m, w.tenant, cs)
    ensures var (run, report) := Apply(m, w).value;
            && (forall c :: c in cs && c.action.Unchanged? ==> HasSpec(c.entity) && Settled(m, run.world.tenant, c.entity))
            && (forall c :: c in report.applied ==> HasSpec(c.entity) && Settled(m, run.world.tenant, c.entity))
            && (report.Complete() ==> Converged(m, run.world.tenant))
  {
    DistinctTwinless(m, cs);
    var n := RunLands(m, w, cs);
    var (run, report) := Apply(m, w).value;
    var t := run.world.tenant;
    forall c | c in cs && c.action.Unchanged? ensures HasSpec(c.entity) && Settled(m, t, c.entity) {
      var i :| 0 <= i < |cs| && cs[i] == c;
      assert Past(cs, n, i);
    }
    forall c | c in report.applied ensures HasSpec(c.entity) && Settled(m, t, c.entity) {
      var i :| 0 <= i < n && cs[i].entity == c.entity;
      assert Past(cs, n, i);
    }
    if report.Complete() {
      forall i | 0 <= i < |cs| ensures HasSpec(cs[i].entity) && Settled(m, t, cs[i].entity) {
        assert Past(cs, n, i);
      }
      AllSettled(m, w, cs, t);
    }
  }

  lemma AllSettled(m: Manifest, w: World, cs: seq<PlannedChange>, t: TenantState)
    requires Plan(m, w.tenant) == Ok(cs)
    requires forall i :: 0 <= i < |cs| ==> HasSpec(cs[i].entity) && Settled(m, t, cs[i].entity)
    ensures Converged(m, t)
  {
    OrderedSpecs(m);
    OrderedSpec(m);
    forall e | e in m ensures HasSpec(e) && Settled(m, t, e) {
      var i := IndexInPlan(m, w, cs, e);
    }
    ConvergedIffSettled(m, t);
  }

  // ---- the conditions are necessary ----

  // Metadata that does not parse never compares equal: no tenant settles the resource.
  lemma UnparsedNeverSettles(m: Manifest, t: TenantState, e: Entity)
    requires HasSpec(e) && !MetadataParses(e)
    ensures !Settled(m, t, e)
  {
  }

  lemma NetworkRunStep(m: Manifest, t0: TenantState, cs: seq<PlannedChange>, k: nat, run: Run)
    requires RunInv(m, cs, k, run) && NetworkLanded(m, t0, cs, k, run.world.tenant) && k < |cs|
    ensures cs[k].action.Unchanged? ==>
              RunInv(m, cs, k + 1, run) && NetworkLanded(m, t0, cs, k + 1, run.world.tenant)
    ensures !cs[k].action.Unchanged? && Perform(m, cs[k], run).failure.None? ==>
              var next := Perform(m, cs[k], run).run;
              RunInv(m, cs, k + 1, next) && NetworkLanded(m, t0, cs, k + 1, next.world.tenant)
  {
    if cs[k].action.Unchanged? {
      RunInvSkip(m, cs, k, run);
      NetworkLandedSkip(m, t0, cs, k, run.world.tenant);
    } else {
      NetworkLandedStep(m, t0, cs, k, run);
      if Perform(m, cs[k], run).failure.None? {
        RunInvNext(m, cs, k, run, Perform(m, cs[k], run));
      }
    }
  }

  // The network part of the loop invariant alone.
  ghost predicate NetworkRun(m: Manifest, t0: TenantState, cs: seq<PlannedChange>, k: nat, run: Run)
  {
    RunInv(m, cs, k, run) && NetworkLanded(m, t0, cs, k, run.world.tenant)
  }

  lemma NetworkRuns(m: Manifest, t0: TenantState, cs: seq<PlannedChange>, k: nat, run: Run)
    requires NetworkRun(m, t0, cs, k, run)
    requires forall c :: c in Pending(cs[k..]) ==> Plannable(c)
    ensures var (run', report) := ApplySeq(m, Pending(cs[k..]), run);
            report.Complete() ==> NetworkRun(m, t0, cs, |cs|, run')
  {
    forall i: nat, r: Run | i < |cs| && NetworkRun(m, t0, cs, i, r)
      ensures cs[i].action.Unchanged? ==> NetworkRun(m, t0, cs, i + 1, r)
      ensures !cs[i].action.Unchanged? && Perform(m, cs[i], r).failure.None? ==>
                NetworkRun(m, t0, cs, i + 1, Perform(m, cs[i], r).run)
    {
      NetworkRunStep(m, t0, cs, i, r);
    }
    CompleteRunKeeps(m, cs, k, run, (i: nat, r: Run) => NetworkRun(m, t0, cs, i, r));
  }

  // A complete run leaves the cap the manifest states.
  lemma CompleteCap(m: Manifest, t0: TenantState, cs: seq<PlannedChange>, t: TenantState, p: Entity)
    requires PlanOf(m, cs) && NetworkLanded(m, t0, cs, |cs|, t)
    requires p in m && p.kind.NetworkPolicy?
    ensures p.policyCap == Some(t.policy.cap)
  {
    OrderedSpec(m);
    var i :| 0 <= i < |cs| && Ordered(m)[i] == p;
    EntityAt(m, cs, i);
    assert Past(cs, |cs|, i);
    assert NetworkPast(m, t0, cs[i], t);
  }

  lemma CapNecessary(m: Manifest, w: World, cs: seq<PlannedChange>)
    requires Fresh(w) && Plan(m, w.tenant) == Ok(cs) && Apply(m, w).value.1.Complete()
    requires Converged(m, Apply(m, w).value.0.world.tenant)
    ensures CapStable(m, w.tenant, cs)
  {
    var t := Apply(m, w).value.0.world.tenant;
    PlanPlannable(m, w.tenant);
    PendingElements(cs);
    RunInvStart(m, w, cs);
    NetworkLandedStart(m, w.tenant, cs);
    assert cs[0..] == cs;
    NetworkRuns(m, w.tenant, cs, 0, Seeded(w, cs));
    OrderedSpecs(m);
    OrderedSpec(m);
    ConvergedIffSettled(m, t);
    forall c, p | c in cs && p in m && p.kind.NetworkPolicy? && p.policyCap.Some?
      ensures CapKeeps(w.tenant, c, p.policyCap.value)
    {
      CompleteCap(m, w.tenant, cs, t, p);
      if c.entity.kind.NetworkProfile? && c.action.Unchanged? {
        var i :| 0 <= i < |cs| && cs[i] == c;
        PlannedAt(m, w, cs, i);
        assert Past(cs, |cs|, i);
        assert NetworkPast(m, w.tenant, cs[i], t);
        UnchangedProfile(m, w.tenant, t, c);
        SameCapKeeps(m, w.tenant, c);
      }
    }
  }

  lemma SameCapKeeps(m: Manifest, t: TenantState, c: PlannedChange)
    requires Declared(m, c.entity) && c.entity.kind.NetworkProfile? && c.action.Unchanged?
    requires PlanEntity(m, t, c.entity) == Ok(c)
    ensures CapKeeps(t, c, t.policy.cap)
  {
  }

  // ---- a Create past the end of the page ----

  ghost predicate NamesPlannedAlike(cs: seq<PlannedChange>)
  {
    forall i, j :: 0 <= i < |cs| && 0 <= j < |cs| && SameName(cs[i].entity, cs[j].entity) ==>
      (cs[i].action.Create? <==> cs[j].action.Create?)
  }

  // The loop as far as the position of one Create in its table goes.
  ghost predicate HiddenInv(m: Manifest, cs: seq<PlannedChange>, k: nat, t: TenantState, target: nat)
  {
    && PlanOf(m, cs) && k <= |cs| && target < |cs| && NewNamesDistinct(cs) && NamesPlannedAlike(cs) && NamedWf(t)
    && var c := cs[target];
       && !IsNetwork(c.entity.kind) && c.action.Create?
       && Creates(cs[target..], c.entity.kind) == 1
       && (forall i :: k <= i < |cs| ==> NamedConsistent(t, cs[i]))
       && (k <= target ==> |Table(t, c.entity.kind)| + Creates(cs[k..], c.entity.kind) > SCAN_LIMIT)
       && Locate(t, c.entity.kind, MatchName(c.entity)).None?
  }

  lemma HiddenStep(m: Manifest, cs: seq<PlannedChange>, k: nat, run: Run, target: nat)
    requires HiddenInv(m, cs, k, run.world.tenant, target) && k < |cs| && !cs[k].action.Unchanged?
    requires !IsNetwork(cs[k].entity.kind) && PerformNamed(m, cs[k], run).failure.None?
    ensures HiddenInv(m, cs, k + 1, PerformNamed(m, cs[k], run).run.world.tenant, target)
  {
    var c, t := cs[k], run.world.tenant;
    var t' := PerformNamed(m, c, run).run.world.tenant;
    var kind, name := cs[target].entity.kind, MatchName(cs[target].entity);
    EntityAt(m, cs, k);
    EntityAt(m, cs, target);
    PerformNamedOutcome(m, c, run);
    CreatesStep(cs, k, kind);
    CreatesStep(cs, target, kind);
    forall i | k + 1 <= i < |cs| ensures NamedConsistent(t', cs[i]) {
      EntityAt(m, cs, i);
      assert SameName(cs[i].entity, c.entity) ==> (cs[i].action.Create? <==> c.action.Create?);
      NamedConsistentFrame(t, t', cs[i], c);
    }
    if k == target {
      var rows, rows' := Table(t, kind), Table(t', kind);
      assert rows' == rows + [rows'[|rows|]];
      assert Visible(rows') == Visible(rows);
    } else {
      LocateFrame(t, t', c.entity, kind, name);
    }
  }

  lemma HiddenNetworkStep(m: Manifest, cs: seq<PlannedChange>, k: nat, t: TenantState, t': TenantState, target: nat)
    requires HiddenInv(m, cs, k, t, target) && k < |cs| && IsNetwork(cs[k].entity.kind) && HasSpec(cs[k].entity)
    requires NetworkStep(m, t, t', cs[k].entity)
    ensures HiddenInv(m, cs, k + 1, t', target)
  {
    NetworkStepTables(m, t, t', cs[k].entity);
    TablesSameWf(t, t');
    TablesSameFound(m, t, t');
    CreatesStep(cs, k, cs[target].entity.kind);
  }

  lemma HiddenSkip(m: Manifest, cs: seq<PlannedChange>, k: nat, t: TenantState, target: nat)
    requires HiddenInv(m, cs, k, t, target) && k < |cs| && cs[k].action.Unchanged?
    ensures HiddenInv(m, cs, k + 1, t, target)
  {
    CreatesStep(cs, k, cs[target].entity.kind);
  }

  lemma HiddenRunStep(m: Manifest, cs: seq<PlannedChange>, k: nat, run: Run, target: nat)
    requires RunInv(m, cs, k, run) && HiddenInv(m, cs, k, run.world.tenant, target) && k < |cs|
    ensures cs[k].action.Unchanged? ==>
              RunInv(m, cs, k + 1, run) && HiddenInv(m, cs, k + 1, run.world.tenant, target)
    ensures !cs[k].action.Unchanged? && Perform(m, cs[k], run).failure.None? ==>
              var next := Perform(m, cs[k], run).run;
              RunInv(m, cs, k + 1, next) && HiddenInv(m, cs, k + 1, next.world.tenant, target)
  {
    if cs[k].action.Unchanged? {
      RunInvSkip(m, cs, k, run);
      HiddenSkip(m, cs, k, run.world.tenant, target);
    } else {
      var o := Perform(m, cs[k], run);
      PerformStep(m, cs, k, run);
      if o.failure.None? {
        RunInvNext(m, cs, k, run, o);
        if IsNetwork(cs[k].entity.kind) {
          HiddenNetworkStep(m, cs, k, run.world.tenant, o.run.world.tenant, target);
        } else {
          HiddenStep(m, cs, k, run, target);
        }
      }
    }
  }

  ghost predicate HiddenRun(m: Manifest, cs: seq<PlannedChange>, k: nat, run: Run, target: nat)
  {
    RunInv(m, cs, k, run) && HiddenInv(m, cs, k, run.world.tenant, target)
  }

  lemma HiddenRuns(m: Manifest, cs: seq<PlannedChange>, k: nat, run: Run, target: nat)
    requires HiddenRun(m, cs, k, run, target)
    requires forall c :: c in Pending(cs[k..]) ==> Plannable(c)
    ensures var (run', report) := ApplySeq(m, Pending(cs[k..]), run);
            report.Complete() ==> HiddenRun(m, cs, |cs|, run', target)
  {
    forall i: nat, r: Run | i < |cs| && HiddenRun(m, cs, i, r, target)
      ensures cs[i].action.Unchanged? ==> HiddenRun(m, cs, i + 1, r, target)
      ensures !cs[i].action.Unchanged? && Perform(m, cs[i], r).failure.None? ==>
                HiddenRun(m, cs, i + 1, Perform(m, cs[i], r).run, target)
    {
      HiddenRunStep(m, cs, i, r, target);
    }
    CompleteRunKeeps(m, cs, k, run, (i: nat, r: Run) => HiddenRun(m, cs, i, r, target));
  }

  // The last Create of a kind.
  lemma {:induction false} LastCreate(cs: seq<PlannedChange>, k: nat, kind: Kind) returns (i: nat)
    requires k <= |cs| && Creates(cs[k..], kind) > 0
    ensures k <= i < |cs| && cs[i].entity.kind == kind && cs[i].action.Create? && Creates(cs[i..], kind) == 1
    decreases |cs| - k
  {
    CreatesStep(cs, k, kind);
    if Creates(cs[k + 1..], kind) == 0 {
      i := k;
    } else {
      i := LastCreate(cs, k + 1, kind);
    }
  }

  lemma LocateNoneUnsettled(m: Manifest, t: TenantState, e: Entity)
    requires HasSpec(e) && !IsNetwork(e.kind) && Locate(t, e.kind, MatchName(e)).None?
    ensures !Settled(m, t, e)
  {
  }

  lemma PageNecessary(m: Manifest, w: World, cs: seq<PlannedChange>)
    requires Fresh(w) && Plan(m, w.tenant) == Ok(cs) && NewNamesDistinct(cs) && Apply(m, w).value.1.Complete()
    requires Converged(m, Apply(m, w).value.0.world.tenant)
    ensures PageRoom(w.tenant, cs)
  {
    var t := Apply(m, w).value.0.world.tenant;
    PlanPlannable(m, w.tenant);
    PendingElements(cs);
    RunInvStart(m, w, cs);
    assert cs[0..] == cs;
    OrderedSpecs(m);
    OrderedSpec(m);
    ConvergedIffSettled(m, t);
    forall kind | !IsNetwork(kind) ensures Room(w.tenant, cs, kind) {
      if !Room(w.tenant, cs, kind) {
        var target := LastCreate(cs, 0, kind);
        forall i | 0 <= i < |cs| ensures NamedConsistent(w.tenant, cs[i]) {
          PlannedAt(m, w, cs, i);
        }
        PlanFinds(m, w, cs);
        HiddenRuns(m, cs, 0, Seeded(w, cs), target);
        EntityAt(m, cs, target);
        LocateNoneUnsettled(m, t, cs[target].entity);
      }
    }
  }

  lemma MetadataNecessary(m: Manifest, t: TenantState)
    requires Coherent(m) && Converged(m, t)
    ensures MetadataOk(m)
  {
    OrderedSpecs(m);
    OrderedSpec(m);
    ConvergedIffSettled(m, t);
    forall e | e in m ensures MetadataParses(e) {
      if !MetadataParses(e) {
        UnparsedNeverSettles(m, t, e);
      }
    }
  }

  // ---- names that declarations share ----

  // Whatever fails, an apply leaves the tables as the server keeps them.
  lemma ApplyKeepsTables(m: Manifest, w: World, cs: seq<PlannedChange>)
    requires Fresh(w) && Plan(m, w.tenant) == Ok(cs)
    ensures GrowInv(cs, w.tenant)
    ensures var t := Apply(m, w).value.0.world.tenant; NamedWf(t) && TablesGrow(w.tenant, t)
  {
    PlanPlannable(m, w.tenant);
    PendingElements(cs);
    forall c | c in cs ensures Real(w.tenant, c) {
      var i :| 0 <= i < |cs| && cs[i] == c;
      PlannedAt(m, w, cs, i);
    }
    RunGrows(m, Pending(cs), Seeded(w, cs));
  }

  lemma ConvergedSettled(m: Manifest, t: TenantState, e: Entity)
    requires Coherent(m) && Converged(m, t) && e in m
    ensures HasSpec(e) && Settled(m, t, e)
  {
    OrderedSpecs(m);
    OrderedSpec(m);
    ConvergedIffSettled(m, t);
  }

  // No tenant is in order for two declarations of one name that state different fields.
  lemma SharedNamesAgree(m: Manifest, t: TenantState, a: Entity, b: Entity)
    requires Coherent(m) && Converged(m, t) && a in m && b in m && SameName(a, b)
    ensures FieldsAgree(a, b)
  {
    ConvergedSettled(m, t, a);
    ConvergedSettled(m, t, b);
  }

  // The resource a name was located at has no other name.
  lemma LocatedName(t: TenantState, x: string, y: string)
    requires NamedWf(t) && LocatedId(t, Resource, x).Some? && LocatedId(t, Resource, x) == LocatedId(t, Resource, y)
    ensures x == y
  {
    assert RowsWf(Table(t, Resource), t.nextId);
  }

  lemma HeldBindingsAlike(m: Manifest, t: TenantState, s: Subject, x: RoleBinding, y: RoleBinding)
    requires NamedWf(t) && BindingOk(m, x) && BindingOk(m, y) && BindingHeld(m, t, s, x) && BindingHeld(m, t, s, y)
    ensures BindingsAlike(m, x, y)
  {
    var p, q := FindKeyOfKind(m, x.role, Role).value, FindKeyOfKind(m, y.role, Role).value;
    if p.name == q.name && x.resource.Some? && y.resource.Some? {
      LocatedName(t, ResourceName(m, x).value, ResourceName(m, y).value);
    }
  }

  // Nor for two that bind a role differently, or for one that binds a role twice and differently.
  lemma SharedBindingsAgree(m: Manifest, t: TenantState, a: Entity, b: Entity)
    requires Coherent(m) && Converged(m, t) && NamedWf(t) && a in m && b in m && SameName(a, b)
    ensures BindingsAgree(m, a, b)
  {
    if IsSubject(a.kind) {
      ConvergedSettled(m, t, a);
      ConvergedSettled(m, t, b);
      SettledHolds(m, t, a);
      SettledHolds(m, t, b);
      assert EntityOk(m, a) && EntityOk(m, b);
      var s := Subject(a.kind, LocatedId(t, a.kind, MatchName(a)).value);
      forall i, j | 0 <= i < |a.roles| && 0 <= j < |b.roles| ensures BindingsAlike(m, a.roles[i], b.roles[j]) {
        HeldBindingsAlike(m, t, s, a.roles[i], b.roles[j]);
      }
    }
  }

  lemma ConvergedNamesAgree(m: Manifest, t: TenantState)
    requires Coherent(m) && Converged(m, t) && NamedWf(t)
    ensures NamesAgree(m)
  {
    forall a, b | a in m && b in m && SameName(a, b) ensures FieldsAgree(a, b) && BindingsAgree(m, a, b) {
      SharedNamesAgree(m, t, a, b);
      SharedBindingsAgree(m, t, a, b);
    }
  }

  lemma RolesAlike(m: Manifest, x: RoleBinding, y: RoleBinding)
    requires DistinctNames(m) && BindingOk(m, x) && BindingOk(m, y) && x.role != y.role
    ensures BindingsAlike(m, x, y)
  {
    var p, q := FindKeyOfKind(m, x.role, Role).value, FindKeyOfKind(m, y.role, Role).value;
    assert p != q && MatchName(p) != MatchName(q);
  }

  lemma OwnBindingsAgree(m: Manifest, e: Entity)
    requires Coherent(m) && DistinctNames(m) && e in m
    ensures BindingsAgree(m, e, e)
  {
    if IsSubject(e.kind) {
      assert EntityOk(m, e);
      forall i, j | 0 <= i < |e.roles| && 0 <= j < |e.roles| ensures BindingsAlike(m, e.roles[i], e.roles[j]) {
        if i != j { RolesAlike(m, e.roles[i], e.roles[j]); }
      }
    }
  }

  // Distinct names leave nothing to disagree about.
  lemma DistinctNamesAgree(m: Manifest, w: World, cs: seq<PlannedChange>)
    requires Plan(m, w.tenant) == Ok(cs) && DistinctNames(m)
    ensures NamesAgree(m) && NewNamesDistinct(cs)
  {
    PlanIsPlanOf(m, w.tenant);
    forall a, b | a in m && b in m && SameName(a, b) ensures FieldsAgree(a, b) && BindingsAgree(m, a, b) {
      OwnBindingsAgree(m, a);
    }
    forall i, j | 0 <= i < j < |cs| ensures !SameName(cs[i].entity, cs[j].entity) {
      EntityAt(m, cs, i);
      EntityAt(m, cs, j);
    }
  }

  // ---- one name created twice ----

  // Of the kinds whose names the server does not keep unique, no name is created twice.
  ghost predicate OpenNamesApart(cs: seq<PlannedChange>)
  {
    forall i, j :: 0 <= i < j < |cs| && cs[i].action.Create? && cs[j].action.Create?
                   && SameName(cs[i].entity, cs[j].entity) ==>
      NameIsUnique(cs[i].entity.kind)
  }

  // Of the others the server refuses a second create, so a complete apply has created none.
  lemma CompleteNamesDistinct(m: Manifest, w: World, cs: seq<PlannedChange>)
    requires Fresh(w) && Plan(m, w.tenant) == Ok(cs) && Apply(m, w).value.1.Complete()
    ensures NewNamesDistinct(cs) <==> OpenNamesApart(cs)
  {
    PlanPlannable(m, w.tenant);
    PendingElements(cs);
    ApplyKeepsTables(m, w, cs);
    forall i, j | 0 <= i < j < |cs| && cs[i].action.Create? && cs[j].action.Create?
                  && SameName(cs[i].entity, cs[j].entity)
      ensures !NameIsUnique(cs[i].entity.kind)
    {
      CreatedTwice(m, cs, Seeded(w, cs), i, j);
    }
  }

  lemma {:induction false} CreatesAny(cs: seq<PlannedChange>, i: nat)
    requires i < |cs| && cs[i].action.Create?
    ensures Creates(cs, cs[i].entity.kind) > 0
  {
    if i > 0 { CreatesAny(cs[1..], i - 1); }
  }

  lemma TwiceNamedAmbiguous(t: TenantState, e: Entity)
    requires e.kind.ServiceAccount? && TwiceNamed(t, ServiceAccount, MatchName(e)) && |t.accounts| <= SCAN_LIMIT
    ensures Ambiguous(t, e)
  {
    assert Table(t, ServiceAccount) == t.accounts && Visible(t.accounts) == t.accounts;
  }

  // Two service accounts created under one name, both on the page: the next plan refuses them.
  lemma SharedAccountsNeverConverge(m: Manifest, w: World, cs: seq<PlannedChange>, i: nat, j: nat)
    requires Fresh(w) && Plan(m, w.tenant) == Ok(cs) && Apply(m, w).value.1.Complete() && PageRoom(w.tenant, cs)
    requires i < j < |cs| && cs[i].action.Create? && cs[j].action.Create? && SameName(cs[i].entity, cs[j].entity)
    requires cs[i].entity.kind.ServiceAccount?
    ensures Plan(m, Apply(m, w).value.0.world.tenant).Err?
  {
    var t := Apply(m, w).value.0.world.tenant;
    PlanPlannable(m, w.tenant);
    PendingElements(cs);
    ApplyKeepsTables(m, w, cs);
    CreatedTwice(m, cs, Seeded(w, cs), i, j);
    CompleteSize(m, cs, Seeded(w, cs), ServiceAccount);
    CreatesAny(cs, i);
    assert Room(w.tenant, cs, ServiceAccount);
    assert Table(t, ServiceAccount) == t.accounts;
    TwiceNamedAmbiguous(t, cs[i].entity);
    PlannedAt(m, w, cs, i);
    RefusedEntity(m, t, cs[i].entity);
  }

  lemma RefusedEntity(m: Manifest, t: TenantState, e: Entity)
    requires Coherent(m) && e in m && Ambiguous(t, e)
    ensures Plan(m, t).Err?
  {
    OrderedSpecs(m);
    OrderedSpec(m);
    var es := Ordered(m);
    var k :| 0 <= k < |es| && es[k] == e;
    assert PlanEntity(m, t, es[k]).Err?;
    PlanSeqStops(m, t, es, k + 1, |es|);
  }

  // ---- exactness ----

  // A complete apply makes the next plan all Unchanged exactly under the three conditions, when
  // declarations that share a name agree. Sharing is no hindrance in itself: only resources and
  // service accounts created twice under one name are left aside.
  lemma ConvergenceExact(m: Manifest, w: World, cs: seq<PlannedChange>)
    requires Fresh(w) && Plan(m, w.tenant) == Ok(cs) && OpenNamesApart(cs)
    requires Apply(m, w).value.1.Complete()
    ensures Converged(m, Apply(m, w).value.0.world.tenant) <==>
            MetadataOk(m) && PageRoom(w.tenant, cs) && CapStable(m, w.tenant, cs) && NamesAgree(m)
  {
    CompleteNamesDistinct(m, w, cs);
    if Converged(m, Apply(m, w).value.0.world.tenant) {
      MetadataNecessary(m, Apply(m, w).value.0.world.tenant);
      PageNecessary(m, w, cs);
      CapNecessary(m, w, cs);
      ApplyKeepsTables(m, w, cs);
      ConvergedNamesAgree(m, Apply(m, w).value.0.world.tenant);
    }
    if MetadataOk(m) && PageRoom(w.tenant, cs) && CapStable(m, w.tenant, cs) && NamesAgree(m) {
      LandedPlansUnchanged(m, w, cs);
    }
  }

  // With names distinct the three conditions are all there is.
  lemma ConvergenceOfDistinctNames(m: Manifest, w: World, cs: seq<PlannedChange>)
    requires Fresh(w) && Plan(m, w.tenant) == Ok(cs) && DistinctNames(m)
    requires Apply(m, w).value.1.Complete()
    ensures Converged(m, Apply(m, w).value.0.world.tenant) <==>
            MetadataOk(m) && PageRoom(w.tenant, cs) && CapStable(m, w.tenant, cs)
  {
    DistinctNamesAgree(m, w, cs);
    ConvergenceExact(m, w, cs);
  }

  lemma {:induction false} NothingPending(cs: seq<PlannedChange>)
    requires forall c :: c in cs ==> c.action.Unchanged?
    ensures Pending(cs) == []
  {
    if cs != [] {
      NothingPending(cs[1..]);
    }
  }

  // Applying to a converged tenant sends nothing.
  lemma ConvergedApplySendsNothing(m: Manifest, w: World)
    requires Converged(m, w.tenant)
    ensures Apply(m, w).Ok? && Apply(m, w).value.0.world == w
    ensures Apply(m, w).value.1 == Report([], None, None, [])
  {
    NothingPending(Plan(m, w.tenant).value);
  }
}
