// Where the two key lookups disagree. validate and ordered find a dependency by key alone,
// perform by key and kind; a key shared across kinds can put a resource after its own child.
module ManifestLookups {
  import opened Prelude
  import opened ManifestTypes
  import opened ManifestOrder
  import opened Tenant
  import opened ManifestPlan
  import opened ManifestApply
  import opened ManifestNetwork
  import opened ManifestBindings
  import opened ManifestPerform
  import opened ManifestRun

  // A tenant that holds nothing, with the default cap.
  const EMPTY := TenantState([], [], [], [], [], map[], PolicyRow(3600, 0), [], [], 0)

  const EMPTY_WORLD := World(EMPTY, [], {})

  lemma EmptyPlanEntity(m: Manifest, e: Entity)
    requires HasSpec(e)
    ensures PlanEntity(m, EMPTY, e).Ok?
    ensures PlanEntity(m, EMPTY, e).value.id.None?
    ensures !e.kind.NetworkPolicy? ==> PlanEntity(m, EMPTY, e).value.action.Create?
  {
  }

  lemma EmptyPlan(m: Manifest)
    requires Coherent(m)
    ensures Plan(m, EMPTY).Ok? && PlanOf(m, Plan(m, EMPTY).value)
    ensures forall i :: 0 <= i < |Plan(m, EMPTY).value| ==>
              var c := Plan(m, EMPTY).value[i];
              c.id.None? && (!c.entity.kind.NetworkPolicy? ==> c.action.Create?)
  {
    OrderedSpecs(m);
    forall e | e in Ordered(m) ensures PlanEntity(m, EMPTY, e).Ok? {
      EmptyPlanEntity(m, e);
    }
    PlanSeqOk(m, EMPTY, Ordered(m), |Ordered(m)|);
    PlanIsPlanOf(m, EMPTY);
    var cs := Plan(m, EMPTY).value;
    forall i | 0 <= i < |cs| ensures cs[i].id.None? && (!cs[i].entity.kind.NetworkPolicy? ==> cs[i].action.Create?) {
      assert PlanEntity(m, EMPTY, Ordered(m)[i]) == Ok(cs[i]);
      EmptyPlanEntity(m, Ordered(m)[i]);
    }
  }

  lemma {:induction false} NoSeeds(cs: seq<PlannedChange>)
    requires forall i :: 0 <= i < |cs| ==> cs[i].id.None?
    ensures SeedResolved(cs) == map[]
  {
    if cs != [] {
      NoSeeds(cs[..|cs| - 1]);
    }
  }

  // The change at j is a resource whose parent resource does not stand before it.
  ghost predicate Orphan(m: Manifest, cs: seq<PlannedChange>, j: nat)
    requires PlanOf(m, cs) && j < |cs|
  {
    var e := cs[j].entity;
    && e.kind.Resource? && e.dependsOn.Some?
    && FindKeyOfKind(m, e.dependsOn.value, Resource).Some?
    && forall i :: 0 <= i < j ==> cs[i].entity != FindKeyOfKind(m, e.dependsOn.value, Resource).value
  }

  // The resource a resource stands under; None at the root.
  function ParentResource(m: Manifest, e: Entity): Option<Entity>
  {
    if e.dependsOn.Some? then FindKeyOfKind(m, e.dependsOn.value, Resource) else None
  }

  // No two resources of one name stand under one parent. The server refuses the second.
  ghost predicate SiblingsApart(m: Manifest)
  {
    forall a, b :: a in m && b in m && a != b && a.kind.Resource? && b.kind.Resource? && a.name == b.name ==>
      ParentResource(m, a) != ParentResource(m, b)
  }

  // So far only resources were created, each under its own key: row i is that of change i.
  ghost predicate OnlyResources(m: Manifest, cs: seq<PlannedChange>, k: nat, run: Run)
    requires k <= |cs|
  {
    && run.world.faults == {} && |run.world.tenant.resources| == k && run.world.tenant.nextId == k
    && (forall i :: 0 <= i < k ==> cs[i].entity.kind.Resource?)
    && (forall i :: 0 <= i < k ==> RowOfChange(m, cs[i].entity, run.world.tenant.resources[i], run.resolved))
    && KeysInOrder(cs, k, run.resolved)
  }

  // The first k changes have their places as ids.
  ghost predicate KeysInOrder(cs: seq<PlannedChange>, k: nat, resolved: ResolvedIds)
    requires k <= |cs|
  {
    && (forall i :: 0 <= i < k ==> (Resource, cs[i].entity.key) in resolved && resolved[(Resource, cs[i].entity.key)] == i)
    && (forall key :: key in resolved ==> exists i :: 0 <= i < k && key == (Resource, cs[i].entity.key))
  }

  ghost predicate RowOfChange(m: Manifest, e: Entity, row: Row, resolved: ResolvedIds)
  {
    row.name == e.name && ParentId(m, resolved, e) == Ok(row.parent)
  }

  predicate StopsUnresolved(f: Option<Failure>) { f.Some? && f.value.Unresolved? }

  // The one other way to stop.
  predicate StopsRefused(f: Option<Failure>) { f == Some(ServerRefused(DuplicateName)) }

  // Ids tell the parents apart, so the server finds no sibling of the name.
  lemma NoSibling(m: Manifest, cs: seq<PlannedChange>, k: nat, run: Run, parent: Option<Id>)
    requires PlanOf(m, cs) && k < |cs| && OnlyResources(m, cs, k, run) && SiblingsApart(m)
    requires cs[k].entity.kind.Resource? && ParentId(m, run.resolved, cs[k].entity) == Ok(parent)
    ensures !SiblingNamed(run.world.tenant.resources, cs[k].entity.name, parent, None)
  {
    var rows, e := run.world.tenant.resources, cs[k].entity;
    if i :| 0 <= i < |rows| && rows[i].name == e.name && rows[i].parent == parent {
      EntityAt(m, cs, i);
      EntityAt(m, cs, k);
      assert RowOfChange(m, cs[i].entity, rows[i], run.resolved);
      SameParent(m, cs, k, run, cs[i].entity, e);
      assert false;
    }
  }

  lemma SameParent(m: Manifest, cs: seq<PlannedChange>, k: nat, run: Run, a: Entity, b: Entity)
    requires k <= |cs| && OnlyResources(m, cs, k, run) && a.kind.Resource? && b.kind.Resource?
    requires ParentId(m, run.resolved, a).Ok? && ParentId(m, run.resolved, a) == ParentId(m, run.resolved, b)
    ensures ParentResource(m, a) == ParentResource(m, b)
  {
    if ParentId(m, run.resolved, a).value.Some? {
      assert (Resource, a.dependsOn.value) in run.resolved && (Resource, b.dependsOn.value) in run.resolved;
    }
  }

  // The rows made before keep their parents: more ids only are known.
  lemma RowsStayOf(m: Manifest, e: Entity, row: Row, resolved: ResolvedIds, key: (Kind, string), id: Id)
    requires RowOfChange(m, e, row, resolved) && key !in resolved
    ensures RowOfChange(m, e, row, resolved[key := id])
  {
  }

  lemma CreateResource(m: Manifest, c: PlannedChange, run: Run, parent: Option<Id>)
    requires c.entity.kind.Resource? && c.action.Create? && ParentId(m, run.resolved, c.entity) == Ok(parent)
    requires run.world.faults == {}
    ensures var o, e, t := PerformNamed(m, c, run), c.entity, run.world.tenant;
            if SiblingNamed(t.resources, e.name, parent, None) then StopsRefused(o.failure)
            else && o.failure.None? && o.run.world.faults == {}
                 && o.run.world.tenant.nextId == t.nextId + 1
                 && o.run.resolved == run.resolved[(Resource, e.key) := t.nextId]
                 && exists row :: o.run.world.tenant.resources == t.resources + [row] && row.name == e.name && row.parent == parent
  {
    var body := CreateBody(c.entity, parent);
    HandleCreate(run.world.tenant, body);
    if !SiblingNamed(run.world.tenant.resources, c.entity.name, parent, None) {
      var row := NewRow(run.world.tenant, body);
      assert PerformNamed(m, c, run).run.world.tenant.resources == run.world.tenant.resources + [row];
    }
  }

  lemma ResourceCreate(m: Manifest, cs: seq<PlannedChange>, k: nat, run: Run)
    requires PlanOf(m, cs) && k < |cs| && OnlyResources(m, cs, k, run)
    requires cs[k].entity.kind.Resource? && cs[k].action.Create?
    ensures var o := PerformNamed(m, cs[k], run);
            || StopsUnresolved(o.failure)
            || (StopsRefused(o.failure) && !SiblingsApart(m))
            || (o.failure.None? && OnlyResources(m, cs, k + 1, o.run) && !Orphan(m, cs, k))
  {
    var e := cs[k].entity;
    var parent := ParentId(m, run.resolved, e);
    if parent.Ok? {
      if Orphan(m, cs, k) {
        OrphanUnresolved(m, cs, k, run);
        assert false;
      }
      CreateResource(m, cs[k], run, parent.value);
      if SiblingsApart(m) { NoSibling(m, cs, k, run, parent.value); }
      if !SiblingNamed(run.world.tenant.resources, e.name, parent.value, None) {
        OneMore(m, cs, k, run, PerformNamed(m, cs[k], run).run, parent.value);
      }
    }
  }

  lemma OrphanUnresolved(m: Manifest, cs: seq<PlannedChange>, k: nat, run: Run)
    requires PlanOf(m, cs) && k < |cs| && OnlyResources(m, cs, k, run) && Orphan(m, cs, k)
    ensures ParentId(m, run.resolved, cs[k].entity).Err?
  {
    var e := cs[k].entity;
    if (Resource, e.dependsOn.value) in run.resolved {
      var p := FindKeyOfKind(m, e.dependsOn.value, Resource).value;
      var i :| 0 <= i < k && (Resource, p.key) == (Resource, cs[i].entity.key);
      EntityAt(m, cs, i);
      CoherentPair(m, cs[i].entity, p);
    }
  }

  lemma OneMore(m: Manifest, cs: seq<PlannedChange>, k: nat, run: Run, next: Run, parent: Option<Id>)
    requires PlanOf(m, cs) && k < |cs| && OnlyResources(m, cs, k, run) && cs[k].entity.kind.Resource?
    requires ParentId(m, run.resolved, cs[k].entity) == Ok(parent)
    requires next.world.faults == {} && next.world.tenant.nextId == k + 1
    requires next.resolved == run.resolved[(Resource, cs[k].entity.key) := k]
    requires exists row :: next.world.tenant.resources == run.world.tenant.resources + [row]
                           && row.name == cs[k].entity.name && row.parent == parent
    ensures OnlyResources(m, cs, k + 1, next)
  {
    OneMoreKey(m, cs, k, run.resolved);
    var key := (Resource, cs[k].entity.key);
    var rows, rows' := run.world.tenant.resources, next.world.tenant.resources;
    forall i | 0 <= i < k + 1 ensures RowOfChange(m, cs[i].entity, rows'[i], next.resolved) {
      var row := rows'[i];
      if i < k { assert row == rows[i]; }
      RowsStayOf(m, cs[i].entity, row, run.resolved, key, k);
    }
  }

  lemma OneMoreKey(m: Manifest, cs: seq<PlannedChange>, k: nat, resolved: ResolvedIds)
    requires PlanOf(m, cs) && k < |cs| && KeysInOrder(cs, k, resolved) && cs[k].entity.kind.Resource?
    requires forall i :: 0 <= i < k ==> cs[i].entity.kind.Resource?
    ensures (Resource, cs[k].entity.key) !in resolved
    ensures KeysInOrder(cs, k + 1, resolved[(Resource, cs[k].entity.key) := k])
  {
    PlanKeysApart(m, cs);
    var resolved' := resolved[(Resource, cs[k].entity.key) := k];
    forall x | x in resolved' ensures exists i :: 0 <= i < k + 1 && x == (Resource, cs[i].entity.key) {
      if x in resolved {
        var i :| 0 <= i < k && x == (Resource, cs[i].entity.key);
      } else {
        assert x == (Resource, cs[k].entity.key);
      }
    }
  }

  lemma {:induction false} OrphanStopsRun(m: Manifest, cs: seq<PlannedChange>, k: nat, run: Run, j: nat)
    requires PlanOf(m, cs) && k <= j < |cs| && Orphan(m, cs, j) && OnlyResources(m, cs, k, run)
    requires forall i :: 0 <= i < |cs| && cs[i].entity.kind.Resource? ==> cs[i].action.Create?
    requires forall c :: c in Pending(cs[k..]) ==> Plannable(c)
    ensures var f := ApplySeq(m, Pending(cs[k..]), run).1.failure;
            StopsUnresolved(f) || (StopsRefused(f) && !SiblingsApart(m))
    decreases |cs| - k
  {
    assert cs[k].entity.kind.Resource? by {
      OrderedSpec(m);
      if k < j { assert Less(m, Ordered(m)[k], Ordered(m)[j]); }
    }
    PendingStep(cs, k);
    ResourceCreate(m, cs, k, run);
    assert Pending(cs[k..])[1..] == Pending(cs[k + 1..]);
    var o := Perform(m, cs[k], run);
    if o.failure.None? {
      OrphanStopsRun(m, cs, k + 1, o.run, j);
    }
  }

  lemma FindOrphan(m: Manifest, cs: seq<PlannedChange>) returns (j: nat)
    requires PlanOf(m, cs) && !ParentsFirst(m)
    ensures j < |cs| && Orphan(m, cs, j)
  {
    var e :| e in m && e.kind.Resource? && e.dependsOn.Some?
             && FindKeyOfKind(m, e.dependsOn.value, Resource).Some?
             && !Less(m, FindKeyOfKind(m, e.dependsOn.value, Resource).value, e);
    OrderedSpec(m);
    j :| 0 <= j < |cs| && Ordered(m)[j] == e;
    forall i | 0 <= i < j ensures cs[i].entity != FindKeyOfKind(m, e.dependsOn.value, Resource).value {
      assert Less(m, Ordered(m)[i], Ordered(m)[j]);
    }
  }

  // A resource that sorts before its parent makes the apply to an empty tenant stop for want of
  // the parent's id, with no call failing: with NothingUnresolved, ParentsFirst is exact. Only the
  // refusal of two resources of one name under one parent can come before it.
  lemma ParentLastFails(m: Manifest)
    requires Coherent(m) && !ParentsFirst(m)
    ensures Apply(m, EMPTY_WORLD).Ok?
    ensures var f := Apply(m, EMPTY_WORLD).value.1.failure;
            StopsUnresolved(f) || (StopsRefused(f) && !SiblingsApart(m))
  {
    EmptyPlan(m);
    var cs := Plan(m, EMPTY).value;
    var j := FindOrphan(m, cs);
    PlanPlannable(m, EMPTY);
    PendingElements(cs);
    NoSeeds(cs);
    assert cs[0..] == cs;
    var start := Run(EMPTY_WORLD, SeedResolved(cs), SeedVersions(cs));
    assert OnlyResources(m, cs, 0, start);
    OrphanStopsRun(m, cs, 0, start, j);
  }

  function Plain(kind: Kind, key: string, dependsOn: Option<string>): Entity
  {
    Entity(kind, key, key, "", "folder", key, false, dependsOn, None, [], None, None, None)
  }

  // A permission and a resource both keyed "x", and a resource "a" under "x": the lookup by key
  // alone finds the permission, so "a" has depth 0 and sorts before its parent.
  lemma SharedKeyExample()
    ensures var m := [Plain(Permission, "x", None), Plain(Resource, "x", None), Plain(Resource, "a", Some("x"))];
            Coherent(m) && !ParentsFirst(m)
  {
    var p, r, a := Plain(Permission, "x", None), Plain(Resource, "x", None), Plain(Resource, "a", Some("x"));
    var m := [p, r, a];
    assert FindKey(m, "x") == Some(p);
    assert Parent(m, a) == Some(p) && Parent(m, p) == None && Parent(m, r) == None;
    forall e, k | e in m && 0 < k ensures Walk(m, e, k) != Some(e) {
      ShortWalks(m, e, k, p);
    }
    assert m[1..][0] == r && FindKeyOfKind(m, "x", Resource) == Some(r);
    assert Depth(m, a) == 0 && Depth(m, r) == 0;
    assert a in m && !StringLess("x", "a");
    assert !Less(m, r, a);
  }

  lemma {:induction false} ShortWalks(m: Manifest, e: Entity, k: nat, p: Entity)
    requires p in m && Parent(m, p).None?
    requires forall x :: x in m ==> Parent(m, x).None? || (x != p && Parent(m, x) == Some(p))
    requires e in m && 0 < k
    ensures Walk(m, e, k).None? || (k == 1 && e != p && Walk(m, e, k) == Some(p))
    decreases k
  {
    if k > 1 {
      ShortWalks(m, e, k - 1, p);
    }
  }
}
