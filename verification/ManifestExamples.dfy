// Complete applies after which the next plan still finds work: what the conditions of the
// convergence theorems are for.
module ManifestExamples {
  import opened Prelude
  import opened Json
  import opened ManifestTypes
  import opened ManifestOrder
  import opened Tenant
  import opened ManifestPlan
  import opened ManifestApply
  import opened ManifestNamed
  import opened ManifestConvergence
  import opened ManifestLookups
  import opened ManifestTheorems
  import opened ManifestShared

  function Bare(kind: Kind, key: string): Entity
  {
    Entity(kind, key, key, "", "folder", key, false, None, None, [], None, None, None)
  }

  // Entities already in apply order.
  lemma AlreadyOrdered(m: Manifest)
    requires (forall e :: e in m ==> EntityOk(m, e)) && !HasCycle(m)
    requires forall i, j :: 0 <= i < j < |m| ==> Compatible(m[i], m[j]) && Less(m, m[i], m[j])
    ensures Coherent(m) && Ordered(m) == m
  {
    OrderedSpec(m);
    SortedUnique(m, m, Ordered(m));
  }

  lemma RootsAcyclic(m: Manifest)
    requires forall e :: e in m ==> e.dependsOn.None?
    ensures !HasCycle(m)
  {
    forall e, k | e in m && 0 < k ensures Walk(m, e, k) != Some(e) {
      RootsStay(m, e, k);
    }
  }

  lemma {:induction false} RootsStay(m: Manifest, e: Entity, k: nat)
    requires (forall x :: x in m ==> x.dependsOn.None?) && e in m && 0 < k
    ensures Walk(m, e, k).None?
    decreases k
  {
    if k > 1 {
      RootsStay(m, e, k - 1);
    }
  }

  lemma PlanInOrder(m: Manifest, t: TenantState)
    requires Coherent(m) && Ordered(m) == m
    requires forall e :: e in m ==> HasSpec(e) && PlanEntity(m, t, e).Ok?
    ensures Plan(m, t).Ok? && |Plan(m, t).value| == |m|
    ensures forall i :: 0 <= i < |m| ==> Plan(m, t).value[i] == PlanEntity(m, t, m[i]).value
  {
    PlanSeqOk(m, t, m, |m|);
    forall i | 0 <= i < |m| ensures Plan(m, t).value[i] == PlanEntity(m, t, m[i]).value {
      assert PlanEntity(m, t, m[i]) == Ok(Plan(m, t).value[i]);
    }
  }

  // ---- the cap ----

  const CAP := Bare(NetworkPolicy, "cap").(policyCap := Some(6000))
  const STAFF := Bare(NetworkSegment, "staff")
                 .(segment := Some(SegmentSpec("hq", "access", "staff", 10, None, None, None)))
  const HOURLY := Bare(NetworkProfile, "hourly").(profile := Some(ProfileSpec("staff", 3600, None, None, None, None)))

  // The stored timeout is 5000; under the cap of 3600 it reads as 3600.
  const CAPPED := EMPTY.(segments := [SegmentRow(0, "hq", "access", "staff", 10, [], None, true, 1)],
                         profiles := [ProfileRow(0, "radius", 5000, RadiusRequest, None, None, None, 1)],
                         nextId := 1)

  const CAPPED_WORLD := World(CAPPED, [], {})

  lemma CappedCoherent(m: Manifest)
    requires m == [CAP, STAFF, HOURLY]
    ensures Coherent(m) && Ordered(m) == m
    ensures FindKeyOfKind(m, "staff", NetworkSegment) == Some(STAFF)
  {
    CappedLookup(m);
    assert EntityOk(m, HOURLY);
    RootsAcyclic(m);
    AlreadyOrdered(m);
  }

  lemma CappedLookup(m: Manifest)
    requires m == [CAP, STAFF, HOURLY]
    ensures FindKeyOfKind(m, "staff", NetworkSegment) == Some(STAFF)
  {
    assert m[1..][0] == STAFF;
  }

  lemma CappedEntities(m: Manifest)
    requires FindKeyOfKind(m, "staff", NetworkSegment) == Some(STAFF)
    ensures PlanEntity(m, CAPPED, CAP) == Ok(Change(CAP, Update, None).(readPolicy := Some(CAPPED.policy)))
    ensures PlanEntity(m, CAPPED, STAFF).Ok? && PlanEntity(m, CAPPED, STAFF).value.action.Unchanged?
    ensures PlanEntity(m, CAPPED, HOURLY).Ok? && PlanEntity(m, CAPPED, HOURLY).value.action.Unchanged?
  {
    assert FindSegment(CAPPED.segments, STAFF.segment.value) == 0;
    assert ProfileIndex(m, CAPPED, HOURLY) == 0;
  }

  lemma CappedPlan(m: Manifest)
    requires m == [CAP, STAFF, HOURLY]
    ensures Coherent(m) && Plan(m, CAPPED).Ok? && |Plan(m, CAPPED).value| == 3
    ensures Plan(m, CAPPED).value[0] == Change(CAP, Update, None).(readPolicy := Some(CAPPED.policy))
    ensures Plan(m, CAPPED).value[1].action.Unchanged? && Plan(m, CAPPED).value[2].action.Unchanged?
    ensures FindKeyOfKind(m, "staff", NetworkSegment) == Some(STAFF)
  {
    CappedCoherent(m);
    CappedEntities(m);
    PlanInOrder(m, CAPPED);
  }

  lemma OnlyFirstPending(cs: seq<PlannedChange>)
    requires |cs| == 3 && !cs[0].action.Unchanged? && cs[1].action.Unchanged? && cs[2].action.Unchanged?
    ensures Pending(cs) == [cs[0]]
  {
    assert Pending(cs[1..]) == [] by {
      assert cs[1..][0] == cs[1] && cs[1..][1..] == [cs[2]];
      assert Pending([cs[2]]) == [];
    }
  }

  const UNCAPPED := CAPPED.(policy := PolicyRow(6000, 1))

  lemma CappedApply(m: Manifest)
    requires m == [CAP, STAFF, HOURLY]
    ensures Apply(m, CAPPED_WORLD).Ok?
    ensures Apply(m, CAPPED_WORLD).value.0.world.tenant == UNCAPPED && Apply(m, CAPPED_WORLD).value.1.Complete()
  {
    CappedPlan(m);
    var cs := Plan(m, CAPPED).value;
    OnlyFirstPending(cs);
    PlanPlannable(m, CAPPED);
    assert Plannable(cs[0]) && cs[0] in cs;
    CapPerformed(m, cs[0], Run(CAPPED_WORLD, SeedResolved(cs), SeedVersions(cs)));
  }

  lemma CapPerformed(m: Manifest, c: PlannedChange, run: Run)
    requires c == Change(CAP, Update, None).(readPolicy := Some(CAPPED.policy)) && run.world == CAPPED_WORLD
    ensures var (run', report) := ApplySeq(m, [c], run); run'.world.tenant == UNCAPPED && report.Complete()
  {
    var o := PerformPolicy(c, run);
    assert o.failure.None? && o.run.world.tenant == UNCAPPED;
    assert [c][1..] == [];
    assert ApplySeq(m, [], o.run) == (o.run, Report([], None, None, []));
  }

  lemma HourlyDrifts(m: Manifest)
    requires FindKeyOfKind(m, "staff", NetworkSegment) == Some(STAFF)
    ensures HasSpec(HOURLY) && !Settled(m, UNCAPPED, HOURLY)
  {
    assert ProfileSegment(m, UNCAPPED, HOURLY) == 0;
    assert ProfileIndex(m, UNCAPPED, HOURLY) == 0;
  }

  lemma UnsettledUnconverged(m: Manifest, t: TenantState, e: Entity)
    requires Coherent(m) && e in m && HasSpec(e) && !Settled(m, t, e)
    ensures !Converged(m, t)
  {
    OrderedSpecs(m);
    OrderedSpec(m);
    ConvergedIffSettled(m, t);
  }

  // A timeout that only the cap makes right: raising the cap uncovers the stored one.
  lemma RaisedCapUncovers()
    ensures var m := [CAP, STAFF, HOURLY];
            && Apply(m, CAPPED_WORLD).Ok?
            && Apply(m, CAPPED_WORLD).value.1.Complete()
            && !Converged(m, Apply(m, CAPPED_WORLD).value.0.world.tenant)
  {
    var m := [CAP, STAFF, HOURLY];
    CappedApply(m);
    CappedPlan(m);
    HourlyDrifts(m);
    assert HOURLY in m;
    UnsettledUnconverged(m, UNCAPPED, HOURLY);
  }

  // ---- the names ----

  // Two resources named "docs", one at the root and one under a folder. The server keeps them
  // apart by their parents; the plan matches by name alone.
  const FIRST := Bare(Resource, "a").(name := "docs", metadata := Some(JsonText("1", Some(JInt(1)))))

  const FOLDER := Bare(Resource, "p")

  function Second(metadata: Option<JsonText>): Entity
  {
    Bare(Resource, "b").(name := "docs", dependsOn := Some("p"), metadata := metadata)
  }

  function New(e: Entity): PlannedChange { Change(e, Create, None) }

  lemma SharedParents(m: Manifest, second: Entity)
    requires m == [FIRST, FOLDER, second] && second == Second(second.metadata)
    ensures FindKeyOfKind(m, "p", Resource) == Some(FOLDER) && FindKey(m, "p") == Some(FOLDER)
    ensures Depth(m, FIRST) == Depth(m, FOLDER) == 0 && Depth(m, second) == 1
  {
    assert m[1..][0] == FOLDER;
    assert Parent(m, second) == Some(FOLDER) && Parent(m, FOLDER) == None;
    assert Chain(m, FOLDER, |m|) == 0;
  }

  lemma SharedCoherent(m: Manifest, second: Entity)
    requires m == [FIRST, FOLDER, second] && second == Second(second.metadata)
    ensures Coherent(m) && Ordered(m) == m
  {
    SharedParents(m, second);
    forall e, k | e in m && 0 < k ensures Walk(m, e, k) != Some(e) {
      ShortWalks(m, e, k, FOLDER);
    }
    assert StringLess("a", "p");
    AlreadyOrdered(m);
  }

  lemma SharedPlan(m: Manifest, second: Entity)
    requires m == [FIRST, FOLDER, second] && second == Second(second.metadata)
    ensures Coherent(m) && Plan(m, EMPTY) == Ok([New(FIRST), New(FOLDER), New(second)])
  {
    SharedCoherent(m, second);
    forall e | e in m ensures PlanEntity(m, EMPTY, e) == Ok(New(e)) {
      assert HasSpec(e);
    }
    PlanInOrder(m, EMPTY);
    assert Plan(m, EMPTY).value == [New(FIRST), New(FOLDER), New(second)];
  }

  lemma AllPending(a: PlannedChange, b: PlannedChange, c: PlannedChange)
    requires !a.action.Unchanged? && !b.action.Unchanged? && !c.action.Unchanged?
    ensures Pending([a, b, c]) == [a, b, c]
  {
    assert [a, b, c][1..] == [b, c] && [b, c][1..] == [c] && [c][1..] == [];
    assert Pending([c]) == [c];
    assert Pending([b, c]) == [b, c];
  }

  // The three creates, one after the other: no two of them are siblings of one name.
  lemma SharedCreates(m: Manifest, run: Run, second: Entity)
    requires m == [FIRST, FOLDER, second] && second == Second(second.metadata) && run.world == EMPTY_WORLD
    ensures ApplySeq(m, [New(FIRST), New(FOLDER), New(second)], run).1.Complete()
  {
    SharedParents(m, second);
    CreateResource(m, New(FIRST), run, None);
    var o1 := PerformNamed(m, New(FIRST), run);
    CreateResource(m, New(FOLDER), o1.run, None);
    var o2 := PerformNamed(m, New(FOLDER), o1.run);
    assert ParentId(m, o2.run.resolved, second) == Ok(Some(1));
    CreateResource(m, New(second), o2.run, Some(1));
    ThreeApplied(m, New(FIRST), New(FOLDER), New(second), run);
  }

  lemma ThreeApplied(m: Manifest, a: PlannedChange, b: PlannedChange, c: PlannedChange, run: Run)
    requires a.entity.kind.Resource? && b.entity.kind.Resource? && c.entity.kind.Resource?
    requires PerformNamed(m, a, run).failure.None?
    requires PerformNamed(m, b, PerformNamed(m, a, run).run).failure.None?
    requires PerformNamed(m, c, PerformNamed(m, b, PerformNamed(m, a, run).run).run).failure.None?
    ensures ApplySeq(m, [a, b, c], run).1.Complete()
  {
    var run1 := PerformNamed(m, a, run).run;
    var run2 := PerformNamed(m, b, run1).run;
    assert [a, b, c][1..] == [b, c] && [b, c][1..] == [c] && [c][1..] == [];
    assert ApplySeq(m, [c], run2).1.Complete();
    assert ApplySeq(m, [b, c], run1).1.Complete();
  }

  lemma SharedApply(m: Manifest, second: Entity)
    requires m == [FIRST, FOLDER, second] && second == Second(second.metadata)
    ensures Coherent(m) && Apply(m, EMPTY_WORLD).Ok? && Apply(m, EMPTY_WORLD).value.1.Complete()
  {
    SharedPlan(m, second);
    var cs := Plan(m, EMPTY).value;
    AllPending(New(FIRST), New(FOLDER), New(second));
    PlanPlannable(m, EMPTY);
    SharedCreates(m, Run(EMPTY_WORLD, SeedResolved(cs), SeedVersions(cs)), second);
  }

  // Two resources of one name that state different metadata: no tenant is in order for both.
  lemma SharedNameNeverSettles(t: TenantState)
    ensures var m := [FIRST, FOLDER, Second(Some(JsonText("2", Some(JInt(2)))))];
            && SiblingsApart(m)
            && Apply(m, EMPTY_WORLD).Ok?
            && Apply(m, EMPTY_WORLD).value.1.Complete()
            && !Converged(m, t)
  {
    var second := Second(Some(JsonText("2", Some(JInt(2)))));
    var m := [FIRST, FOLDER, second];
    SharedApply(m, second);
    SharedParents(m, second);
    assert FIRST in m && second in m;
    if Converged(m, t) {
      SharedNamesAgree(m, t, FIRST, second);
      assert false;
    }
  }

  lemma {:induction false} CreatesAtMost(cs: seq<PlannedChange>, kind: Kind)
    ensures Creates(cs, kind) <= |cs|
  {
    if cs != [] { CreatesAtMost(cs[1..], kind); }
  }

  lemma EmptyHasRoom(cs: seq<PlannedChange>)
    requires |cs| <= SCAN_LIMIT
    ensures PageRoom(EMPTY, cs)
  {
    forall k | !IsNetwork(k) ensures Room(EMPTY, cs, k) {
      CreatesAtMost(cs, k);
      assert Table(EMPTY, k) == [];
    }
  }

  lemma EmptyIsFresh()
    ensures Fresh(EMPTY_WORLD)
  {
    assert forall k :: Table(EMPTY, k) == [];
  }

  lemma PlainAgrees(m: Manifest)
    requires m == [FIRST, FOLDER, Second(None)]
    ensures NamesAgree(m) && MetadataOk(m)
  {
    assert forall e :: e in m ==> e == FIRST || e == FOLDER || e == Second(None);
  }

  // For resources created under one name agreeing is not enough: the one created last states no
  // metadata, and the first is then matched to the row stored without any.
  lemma PlainTwinOverrides()
    ensures var m := [FIRST, FOLDER, Second(None)];
            && SiblingsApart(m)
            && Apply(m, EMPTY_WORLD).Ok?
            && Apply(m, EMPTY_WORLD).value.1.Complete()
            && NamesAgree(m) && MetadataOk(m) && PageRoom(EMPTY, Plan(m, EMPTY).value)
            && CapStable(m, EMPTY, Plan(m, EMPTY).value)
            && !Converged(m, Apply(m, EMPTY_WORLD).value.0.world.tenant)
  {
    var second := Second(None);
    var m := [FIRST, FOLDER, second];
    SharedApply(m, second);
    SharedPlan(m, second);
    SharedParents(m, second);
    PlainAgrees(m);
    FirstOverridden(m, second);
  }

  lemma FirstOverridden(m: Manifest, second: Entity)
    requires m == [FIRST, FOLDER, second] && second == Second(None)
    ensures Apply(m, EMPTY_WORLD).Ok? && PageRoom(EMPTY, Plan(m, EMPTY).value)
    ensures !Converged(m, Apply(m, EMPTY_WORLD).value.0.world.tenant)
  {
    SharedApply(m, second);
    SharedPlan(m, second);
    EmptyIsFresh();
    var cs := Plan(m, EMPTY).value;
    EmptyHasRoom(cs);
    SharedResourceSettles(m, EMPTY_WORLD, cs, 0, 2);
    assert FIRST in m;
    UnsettledUnconverged(m, Apply(m, EMPTY_WORLD).value.0.world.tenant, FIRST);
  }
}
