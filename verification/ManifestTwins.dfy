// A binding narrowed to a resource that another of its name is created after: the run binds the id
// of the earlier row, and the next plan looks for the later one.
module ManifestTwins {
  import opened Prelude
  import opened ManifestTypes
  import opened ManifestOrder
  import opened Tenant
  import opened ManifestPlan
  import opened ManifestApply
  import opened ManifestNetwork
  import opened ManifestNamed
  import opened ManifestBindings
  import opened ManifestPerform
  import opened ManifestRun
  import opened ManifestLanded
  import opened ManifestSettle
  import opened ManifestConvergence
  import opened ManifestGrow
  import opened ManifestTheorems
  import opened ManifestRebind
  import opened ManifestShared

  // Resources i and j are created under one name, and binding y of subject x is narrowed to i.
  datatype Case = Case(i: nat, j: nat, x: nat, y: nat)

  ghost predicate CaseOf(m: Manifest, t0: TenantState, cs: seq<PlannedChange>, a: Case)
  {
    && PlanOf(m, cs) && PlannedFrom(m, t0, cs) && BindingNamesDistinct(m)
    && a.i < a.j < |cs| && a.x < |cs| && Twins(cs, a.i, a.j) && cs[a.i].entity.kind.Resource?
    && IsSubject(cs[a.x].entity.kind) && a.y < |cs[a.x].entity.roles|
    && cs[a.x].entity.roles[a.y].resource == Some(cs[a.i].entity.key)
    && (forall n, k :: 0 <= n < k < |cs| && Twins(cs, n, k) ==> cs[n].entity.kind.Resource?)
  }

  function BindingOf(cs: seq<PlannedChange>, a: Case): RoleBinding
    requires a.x < |cs| && a.y < |cs[a.x].entity.roles|
  {
    cs[a.x].entity.roles[a.y]
  }

  lemma CaseOrder(m: Manifest, t0: TenantState, cs: seq<PlannedChange>, a: Case)
    requires CaseOf(m, t0, cs, a)
    ensures a.j < a.x && !cs[a.x].action.Unchanged?
    ensures ResourceName(m, BindingOf(cs, a)) == Some(cs[a.i].entity.name)
  {
    OrderedSpec(m);
    EntityAt(m, cs, a.i);
    FindKeyOfKindUnique(m, cs[a.i].entity);
    assert a.x <= a.j ==> a.x == a.j || Less(m, Ordered(m)[a.x], Ordered(m)[a.j]);
  }

  // ---- the loop: changes still to come are as planned, and there is room for them ----

  ghost predicate ConsInv(m: Manifest, cs: seq<PlannedChange>, k: nat, run: Run)
  {
    && k <= |cs| && RolesInv(m, cs, run)
    && (forall n :: k <= n < |cs| ==> NamedConsistent(run.world.tenant, cs[n]))
    && (forall kind :: !IsNetwork(kind) ==> Room(run.world.tenant, cs[k..], kind))
  }

  lemma RoomNext(cs: seq<PlannedChange>, k: nat, t: TenantState, t': TenantState, kind: Kind)
    requires k < |cs| && Room(t, cs[k..], kind)
    requires |Table(t', kind)| <= |Table(t, kind)| + if kind == cs[k].entity.kind && cs[k].action.Create? then 1 else 0
    ensures Room(t', cs[k + 1..], kind)
  {
    CreatesStep(cs, k, kind);
  }

  lemma ConsNamed(m: Manifest, t0: TenantState, cs: seq<PlannedChange>, k: nat, run: Run, a: Case)
    requires CaseOf(m, t0, cs, a) && ConsInv(m, cs, k, run) && k < |cs| && !IsNetwork(cs[k].entity.kind)
    requires !cs[k].action.Unchanged?
    ensures forall n :: k + 1 <= n < |cs| ==> NamedConsistent(PerformNamed(m, cs[k], run).run.world.tenant, cs[n])
  {
    var t, t' := run.world.tenant, PerformNamed(m, cs[k], run).run.world.tenant;
    PerformNamedOutcome(m, cs[k], run);
    forall n | k + 1 <= n < |cs| ensures NamedConsistent(t', cs[n]) {
      if SameName(cs[n].entity, cs[k].entity) {
        PlannedAlike(m, t0, cs, n, k);
        assert cs[k].action.Create? ==> Twins(cs, k, n);
      }
      NamedConsistentFrame(t, t', cs[n], cs[k]);
    }
  }

  lemma ConsStep(m: Manifest, t0: TenantState, cs: seq<PlannedChange>, k: nat, run: Run, a: Case)
    requires CaseOf(m, t0, cs, a) && ConsInv(m, cs, k, run) && k < |cs| && !cs[k].action.Unchanged?
    requires Plannable(cs[k]) && Perform(m, cs[k], run).failure.None?
    ensures ConsInv(m, cs, k + 1, Perform(m, cs[k], run).run)
  {
    var t, t' := run.world.tenant, Perform(m, cs[k], run).run.world.tenant;
    EntityAt(m, cs, k);
    RolesStep(m, cs, cs[k], run);
    GrowStep(m, cs, cs[k], run);
    forall kind | !IsNetwork(kind) ensures Room(t', cs[k + 1..], kind) {
      assert Room(t, cs[k..], kind);
      RoomNext(cs, k, t, t', kind);
    }
    if IsNetwork(cs[k].entity.kind) {
      NetworkKeepsNamed(m, cs[k], run);
      TablesSameFound(m, t, t');
    } else {
      ConsNamed(m, t0, cs, k, run, a);
    }
  }

  lemma ConsSkip(m: Manifest, cs: seq<PlannedChange>, k: nat, run: Run)
    requires ConsInv(m, cs, k, run) && k < |cs| && cs[k].action.Unchanged?
    ensures ConsInv(m, cs, k + 1, run)
  {
    forall kind | !IsNetwork(kind) ensures Room(run.world.tenant, cs[k + 1..], kind) {
      assert Room(run.world.tenant, cs[k..], kind);
      RoomNext(cs, k, run.world.tenant, run.world.tenant, kind);
    }
  }

  // ---- the earlier resource ----

  // A row of the name stands behind the row of that id.
  ghost predicate Behind(rows: seq<Row>, id: Id, name: string)
  {
    exists p, q :: 0 <= p < q < |rows| && rows[p].id == id && rows[q].name == name
  }

  ghost predicate EarlierInv(cs: seq<PlannedChange>, k: nat, run: Run, a: Case)
    requires a.i < a.j < |cs|
  {
    var key, name := (Resource, cs[a.i].entity.key), cs[a.i].entity.name;
    && (k > a.i ==> key in run.resolved && HasRow(run.world.tenant, Resource, run.resolved[key], name))
    && (k > a.j ==> Behind(Table(run.world.tenant, Resource), run.resolved[key], name))
  }

  // What a performed change leaves for the loop: its own id, and every other as it was.
  ghost predicate Resolves(c: PlannedChange, run: Run, next: Run)
  {
    var key := (c.entity.kind, c.entity.key);
    && key in next.resolved && next.resolved == run.resolved[key := next.resolved[key]]
    && HasRow(next.world.tenant, c.entity.kind, next.resolved[key], MatchName(c.entity))
  }

  lemma NamedResolves(m: Manifest, c: PlannedChange, run: Run)
    requires NamedWf(run.world.tenant) && !IsNetwork(c.entity.kind) && Real(run.world.tenant, c)
    requires PerformNamed(m, c, run).failure.None?
    ensures Resolves(c, run, PerformNamed(m, c, run).run)
  {
    var e := c.entity;
    var parent := ParentId(m, run.resolved, e).value;
    WriteRowGrows(run.world, c, parent);
    var (w1, written) := WriteRow(run.world, e, c, parent);
    var resolved := run.resolved[(e.kind, e.key) := written.value];
    BindingsElsewhere(m, resolved, w1, e, written.value, c.action.Create?, Subject(e.kind, 0), 0);
    assert HasRow(w1.tenant, e.kind, written.value, MatchName(e));
  }

  lemma BehindStays(t: TenantState, t': TenantState, id: Id, name: string)
    requires TablesGrow(t, t') && Behind(Table(t, Resource), id, name)
    ensures Behind(Table(t', Resource), id, name)
  {
    assert RowsGrow(Table(t, Resource), Table(t', Resource));
  }

  // A row added goes behind all there are.
  lemma BehindAdded(t: TenantState, t': TenantState, id: Id, name: string)
    requires NamedWf(t) && TablesGrow(t, t') && HasRow(t, Resource, id, name) && HasRow(t', Resource, t.nextId, name)
    ensures Behind(Table(t', Resource), id, name)
  {
    var rows, rows' := Table(t, Resource), Table(t', Resource);
    assert RowsGrow(rows, rows') && RowsWf(rows, t.nextId);
    var p :| 0 <= p < |rows| && rows[p].id == id && rows[p].name == name;
    var q :| 0 <= q < |rows'| && rows'[q].id == t.nextId && rows'[q].name == name;
    assert rows'[p].id == id && q >= |rows|;
  }

  lemma EarlierNext(m: Manifest, cs: seq<PlannedChange>, k: nat, run: Run, next: Run, a: Case)
    requires PlanOf(m, cs) && a.i < a.j < |cs| && k < |cs| && cs[a.i].entity.kind.Resource?
    requires EarlierInv(cs, k, run, a) && NamedWf(run.world.tenant)
    requires TablesGrow(run.world.tenant, next.world.tenant) && Resolves(cs[k], run, next)
    requires k == a.j ==> HasRow(next.world.tenant, Resource, run.world.tenant.nextId, cs[a.i].entity.name)
    ensures EarlierInv(cs, k + 1, next, a)
  {
    var key, name := (Resource, cs[a.i].entity.key), cs[a.i].entity.name;
    if k > a.i {
      PlanKeysApart(m, cs);
      assert next.resolved[key] == run.resolved[key];
      EarlierStays(run.world.tenant, next.world.tenant, run.resolved[key], name, k == a.j, k > a.j);
    }
  }

  lemma EarlierNamed(m: Manifest, t0: TenantState, cs: seq<PlannedChange>, k: nat, run: Run, a: Case)
    requires CaseOf(m, t0, cs, a) && ConsInv(m, cs, k, run) && EarlierInv(cs, k, run, a) && k < |cs|
    requires !IsNetwork(cs[k].entity.kind) && PerformNamed(m, cs[k], run).failure.None?
    ensures EarlierInv(cs, k + 1, PerformNamed(m, cs[k], run).run, a)
  {
    assert Real(run.world.tenant, cs[k]);
    PerformNamedGrows(m, cs[k], run);
    NamedResolves(m, cs[k], run);
    EarlierNext(m, cs, k, run, PerformNamed(m, cs[k], run).run, a);
  }

  lemma EarlierStays(t: TenantState, t': TenantState, id: Id, name: string, added: bool, behind: bool)
    requires NamedWf(t) && TablesGrow(t, t') && HasRow(t, Resource, id, name)
    requires added ==> HasRow(t', Resource, t.nextId, name)
    requires behind ==> Behind(Table(t, Resource), id, name)
    ensures HasRow(t', Resource, id, name) && (added || behind ==> Behind(Table(t', Resource), id, name))
  {
    RowStays(t, t', Resource, id, name);
    if added { BehindAdded(t, t', id, name); }
    if behind { BehindStays(t, t', id, name); }
  }

  lemma EarlierNetwork(m: Manifest, cs: seq<PlannedChange>, k: nat, run: Run, a: Case)
    requires PlanOf(m, cs) && a.i < a.j < |cs| && EarlierInv(cs, k, run, a) && k < |cs|
    requires IsNetwork(cs[k].entity.kind) && cs[a.i].entity.kind.Resource? && cs[a.j].entity.kind.Resource?
    requires Perform(m, cs[k], run).failure.None?
    ensures EarlierInv(cs, k + 1, Perform(m, cs[k], run).run, a)
  {
    NetworkKeepsNamed(m, cs[k], run);
    NetworkKeepsKeys(m, cs[k], run);
    assert k != a.i && k != a.j;
    assert Table(Perform(m, cs[k], run).run.world.tenant, Resource) == Table(run.world.tenant, Resource);
  }

  lemma NetworkKeepsKeys(m: Manifest, c: PlannedChange, run: Run)
    requires Plannable(c) && IsNetwork(c.entity.kind)
    ensures forall key :: key in run.resolved ==> key in Perform(m, c, run).run.resolved
  {
  }

  // ---- the subject narrowed to it ----

  ghost predicate SubjectInv(cs: seq<PlannedChange>, k: nat, run: Run, a: Case)
    requires a.x < |cs| && a.y < |cs[a.x].entity.roles|
  {
    var e := cs[a.x].entity;
    k > a.x ==>
      && (e.kind, e.key) in run.resolved
      && LocatedId(run.world.tenant, e.kind, MatchName(e)) == Some(run.resolved[(e.kind, e.key)])
      && BindingIn(run.resolved, run.world.tenant, Subject(e.kind, run.resolved[(e.kind, e.key)]), BindingOf(cs, a))
  }

  // The subject's own change puts the binding in force.
  lemma SubjectPuts(m: Manifest, t0: TenantState, cs: seq<PlannedChange>, run: Run, a: Case)
    requires CaseOf(m, t0, cs, a) && ConsInv(m, cs, a.x, run) && PerformNamed(m, cs[a.x], run).failure.None?
    ensures SubjectInv(cs, a.x + 1, PerformNamed(m, cs[a.x], run).run, a)
  {
    var c, e, t := cs[a.x], cs[a.x].entity, run.world.tenant;
    CaseOrder(m, t0, cs, a);
    EntityAt(m, cs, a.x);
    assert Real(t, c) && Room(t, cs[a.x..], e.kind);
    CreatesStep(cs, a.x, e.kind);
    var parent := ParentId(m, run.resolved, e).value;
    WriteKeepsRoles(m, c, run, parent);
    WriteRowEffect(run.world, c, parent);
    var (w1, written) := WriteRow(run.world, e, c, parent);
    var id := written.value;
    var resolved := run.resolved[(e.kind, e.key) := id];
    WrittenIsLocated(t, w1.tenant, c, id);
    if c.action.Create? { NewSubjectUnbound(t, w1.tenant, Subject(e.kind, id)); }
    BindingsDone(m, resolved, w1, e, id, c.action.Create?);
    PerformBindingsEffect(m, resolved, w1, e, id, c.action.Create?);
    OnlySubjectKeeps(m, w1.tenant, PerformBindings(m, resolved, w1, e, id, c.action.Create?).0.tenant,
                     Subject(e.kind, id), resolved);
  }

  // A row of another name in the same place: the subject is found where it was, and holds what it held.
  lemma SubjectUntouched(m: Manifest, c: PlannedChange, run: Run, e: Entity, id: Id, role: Id)
    requires NamedWf(run.world.tenant) && Real(run.world.tenant, c) && NamedConsistent(run.world.tenant, c)
    requires !IsNetwork(c.entity.kind) && !c.action.Unchanged? && IsSubject(e.kind) && !SameName(e, c.entity)
    requires LocatedId(run.world.tenant, e.kind, MatchName(e)) == Some(id)
    ensures var t' := PerformNamed(m, c, run).run.world.tenant;
            && LocatedId(t', e.kind, MatchName(e)) == Some(id)
            && Bound(t', Subject(e.kind, id), role) == Bound(run.world.tenant, Subject(e.kind, id), role)
  {
    var t, t' := run.world.tenant, PerformNamed(m, c, run).run.world.tenant;
    PerformNamedOutcome(m, c, run);
    LocatedIdStays(t, t', c.entity, e.kind, MatchName(e));
    var at := Locate(t', e.kind, MatchName(e)).value;
    assert Table(t', e.kind)[at].id == id;
    assert HasRow(t', e.kind, id, MatchName(e));
    if e.kind == c.entity.kind { OtherRow(t', e.kind, id, MatchName(e), MatchName(c.entity)); }
    OwnBindingsOnly(m, c, run, Subject(e.kind, id), role);
  }

  // After a subject come only subjects and the network kinds.
  lemma AfterSubject(m: Manifest, cs: seq<PlannedChange>, x: nat, k: nat)
    requires PlanOf(m, cs) && BindingNamesDistinct(m) && x < k < |cs| && IsSubject(cs[x].entity.kind)
    ensures !cs[k].entity.kind.Resource? && !cs[k].entity.kind.Role? && !SameName(cs[x].entity, cs[k].entity)
    ensures (cs[k].entity.kind, cs[k].entity.key) != (cs[x].entity.kind, cs[x].entity.key)
  {
    OrderedSpec(m);
    assert Less(m, Ordered(m)[x], Ordered(m)[k]);
    EntityAt(m, cs, x);
    EntityAt(m, cs, k);
    PlanKeysApart(m, cs);
  }

  lemma StillIn(resolved: ResolvedIds, resolved': ResolvedIds, t: TenantState, t': TenantState, s: Subject, b: RoleBinding)
    requires BindingIn(resolved, t, s, b) && Bound(t', s, resolved[(Role, b.role)]) == Bound(t, s, resolved[(Role, b.role)])
    requires forall key :: key in resolved && (key.0.Role? || key.0.Resource?) ==>
               key in resolved' && resolved'[key] == resolved[key]
    ensures BindingIn(resolved', t', s, b)
  {
  }

  lemma SubjectNext(cs: seq<PlannedChange>, k: nat, run: Run, next: Run, a: Case)
    requires a.x < k < |cs| && a.y < |cs[a.x].entity.roles| && SubjectInv(cs, k, run, a) && Resolves(cs[k], run, next)
    requires !cs[k].entity.kind.Resource? && !cs[k].entity.kind.Role?
    requires (cs[k].entity.kind, cs[k].entity.key) != (cs[a.x].entity.kind, cs[a.x].entity.key)
    requires var e, role := cs[a.x].entity, run.resolved[(Role, BindingOf(cs, a).role)];
             var id := run.resolved[(e.kind, e.key)];
             && LocatedId(next.world.tenant, e.kind, MatchName(e)) == Some(id)
             && Bound(next.world.tenant, Subject(e.kind, id), role) == Bound(run.world.tenant, Subject(e.kind, id), role)
    ensures SubjectInv(cs, k + 1, next, a)
  {
    var e := cs[a.x].entity;
    StillIn(run.resolved, next.resolved, run.world.tenant, next.world.tenant,
            Subject(e.kind, run.resolved[(e.kind, e.key)]), BindingOf(cs, a));
  }

  lemma LaterKeepsSubject(m: Manifest, t0: TenantState, cs: seq<PlannedChange>, k: nat, run: Run, a: Case)
    requires CaseOf(m, t0, cs, a) && ConsInv(m, cs, k, run) && SubjectInv(cs, k, run, a) && a.x < k < |cs|
    requires !IsNetwork(cs[k].entity.kind) && !cs[k].action.Unchanged? && PerformNamed(m, cs[k], run).failure.None?
    ensures SubjectInv(cs, k + 1, PerformNamed(m, cs[k], run).run, a)
  {
    var e, b := cs[a.x].entity, BindingOf(cs, a);
    AfterSubject(m, cs, a.x, k);
    assert Real(run.world.tenant, cs[k]);
    NamedResolves(m, cs[k], run);
    SubjectUntouched(m, cs[k], run, e, run.resolved[(e.kind, e.key)], run.resolved[(Role, b.role)]);
    SubjectNext(cs, k, run, PerformNamed(m, cs[k], run).run, a);
  }

  lemma SubjectNetwork(m: Manifest, cs: seq<PlannedChange>, k: nat, run: Run, a: Case)
    requires PlanOf(m, cs) && a.x < |cs| && a.y < |cs[a.x].entity.roles| && IsSubject(cs[a.x].entity.kind)
    requires SubjectInv(cs, k, run, a) && k < |cs| && IsNetwork(cs[k].entity.kind)
    requires Perform(m, cs[k], run).failure.None?
    ensures SubjectInv(cs, k + 1, Perform(m, cs[k], run).run, a)
  {
    NetworkKeepsNamed(m, cs[k], run);
    NetworkKeepsKeys(m, cs[k], run);
    assert k != a.x;
    assert Table(Perform(m, cs[k], run).run.world.tenant, cs[a.x].entity.kind)
           == Table(run.world.tenant, cs[a.x].entity.kind);
  }

  // ---- the whole run ----

  ghost predicate CaseInv(m: Manifest, t0: TenantState, cs: seq<PlannedChange>, k: nat, run: Run, a: Case)
  {
    CaseOf(m, t0, cs, a) && ConsInv(m, cs, k, run) && EarlierInv(cs, k, run, a) && SubjectInv(cs, k, run, a)
  }

  lemma StillBefore(cs: seq<PlannedChange>, k: nat, run: Run, a: Case)
    requires a.i < a.j < |cs| && a.x < |cs| && a.y < |cs[a.x].entity.roles|
    requires k != a.i && k != a.j && k != a.x && EarlierInv(cs, k, run, a) && SubjectInv(cs, k, run, a)
    ensures EarlierInv(cs, k + 1, run, a) && SubjectInv(cs, k + 1, run, a)
  {
  }

  lemma CaseSkip(m: Manifest, t0: TenantState, cs: seq<PlannedChange>, k: nat, run: Run, a: Case)
    requires CaseInv(m, t0, cs, k, run, a) && k < |cs| && cs[k].action.Unchanged?
    ensures CaseInv(m, t0, cs, k + 1, run, a)
  {
    CaseOrder(m, t0, cs, a);
    ConsSkip(m, cs, k, run);
    StillBefore(cs, k, run, a);
  }

  lemma CaseStep(m: Manifest, t0: TenantState, cs: seq<PlannedChange>, k: nat, run: Run, a: Case)
    requires CaseInv(m, t0, cs, k, run, a) && k < |cs| && !cs[k].action.Unchanged?
    requires Plannable(cs[k]) && Perform(m, cs[k], run).failure.None?
    ensures CaseInv(m, t0, cs, k + 1, Perform(m, cs[k], run).run, a)
  {
    ConsStep(m, t0, cs, k, run, a);
    if IsNetwork(cs[k].entity.kind) {
      EarlierNetwork(m, cs, k, run, a);
      SubjectNetwork(m, cs, k, run, a);
    } else {
      EarlierNamed(m, t0, cs, k, run, a);
      if k == a.x { SubjectPuts(m, t0, cs, run, a); }
      if k > a.x { LaterKeepsSubject(m, t0, cs, k, run, a); }
    }
  }

  lemma CaseNext(m: Manifest, t0: TenantState, cs: seq<PlannedChange>, k: nat, run: Run, a: Case)
    requires CaseInv(m, t0, cs, k, run, a) && k < |cs|
    ensures cs[k].action.Unchanged? ==> CaseInv(m, t0, cs, k + 1, run, a)
    ensures !cs[k].action.Unchanged? && Plannable(cs[k]) && Perform(m, cs[k], run).failure.None? ==>
              CaseInv(m, t0, cs, k + 1, Perform(m, cs[k], run).run, a)
  {
    if cs[k].action.Unchanged? {
      CaseSkip(m, t0, cs, k, run, a);
    } else if Plannable(cs[k]) && Perform(m, cs[k], run).failure.None? {
      CaseStep(m, t0, cs, k, run, a);
    }
  }

  lemma CaseBegins(m: Manifest, w: World, cs: seq<PlannedChange>, a: Case)
    requires Fresh(w) && Plan(m, w.tenant) == Ok(cs) && PageRoom(w.tenant, cs) && CaseOf(m, w.tenant, cs, a)
    ensures CaseInv(m, w.tenant, cs, 0, Seeded(w, cs), a)
  {
    SeededRoles(m, w, cs);
    assert cs[0..] == cs;
    forall n | 0 <= n < |cs| ensures NamedConsistent(w.tenant, cs[n]) {
      PlannedAt(m, w, cs, n);
    }
  }

  lemma CaseRuns(m: Manifest, w: World, cs: seq<PlannedChange>, a: Case)
    requires Fresh(w) && Plan(m, w.tenant) == Ok(cs) && Apply(m, w).value.1.Complete() && PageRoom(w.tenant, cs)
    requires CaseOf(m, w.tenant, cs, a)
    ensures CaseInv(m, w.tenant, cs, |cs|, Apply(m, w).value.0, a)
  {
    CaseBegins(m, w, cs, a);
    PlanPlannable(m, w.tenant);
    PendingElements(cs);
    assert cs[0..] == cs;
    forall k: nat, r: Run | k < |cs| && CaseInv(m, w.tenant, cs, k, r, a)
      ensures cs[k].action.Unchanged? ==> CaseInv(m, w.tenant, cs, k + 1, r, a)
      ensures !cs[k].action.Unchanged? && Plannable(cs[k]) && Perform(m, cs[k], r).failure.None? ==>
                CaseInv(m, w.tenant, cs, k + 1, Perform(m, cs[k], r).run, a)
    {
      CaseNext(m, w.tenant, cs, k, r, a);
    }
    CompleteRunKeeps(m, cs, 0, Seeded(w, cs), (k: nat, r: Run) => CaseInv(m, w.tenant, cs, k, r, a));
  }

  // The plan looks for the row behind.
  lemma LocatedBehind(t: TenantState, id: Id, name: string)
    requires NamedWf(t) && |Table(t, Resource)| <= SCAN_LIMIT && Behind(Table(t, Resource), id, name)
    ensures LocatedId(t, Resource, name) != Some(id)
  {
    var rows := Table(t, Resource);
    assert Visible(rows) == rows && RowsWf(rows, t.nextId);
  }

  // One assignment is not narrowed to two resources.
  lemma HeldIsNamed(m: Manifest, resolved: ResolvedIds, t: TenantState, s: Subject, b: RoleBinding)
    requires NamedWf(t) && RolesReal(m, t, resolved) && BindingOk(m, b) && b.resource.Some?
    requires BindingHeld(m, t, s, b) && BindingIn(resolved, t, s, b)
    ensures NamedResource(m, t, b) == Some(resolved[(Resource, b.resource.value)])
  {
    var role := FindKeyOfKind(m, b.role, Role).value;
    HeldIsBound(t, s, role.name, resolved[(Role, b.role)]);
    HeldAsNamed(m, t, s, b);
  }

  lemma CaseUnconverged(m: Manifest, w: World, cs: seq<PlannedChange>, a: Case)
    requires Fresh(w) && Plan(m, w.tenant) == Ok(cs) && Apply(m, w).value.1.Complete() && PageRoom(w.tenant, cs)
    requires CaseOf(m, w.tenant, cs, a)
    ensures !Converged(m, Apply(m, w).value.0.world.tenant)
  {
    var run := Apply(m, w).value.0;
    var t, e, b := run.world.tenant, cs[a.x].entity, BindingOf(cs, a);
    CaseRuns(m, w, cs, a);
    CaseOrder(m, w.tenant, cs, a);
    PlanPlannable(m, w.tenant);
    PendingElements(cs);
    ApplyKeepsTables(m, w, cs);
    CompleteSize(m, cs, Seeded(w, cs), Resource);
    CreatesAny(cs, a.i);
    assert Room(w.tenant, cs, Resource);
    LocatedBehind(t, run.resolved[(Resource, cs[a.i].entity.key)], cs[a.i].entity.name);
    EntityAt(m, cs, a.x);
    assert EntityOk(m, e) && BindingOk(m, b);
    if Converged(m, t) {
      ConvergedSettled(m, t, e);
      SettledHolds(m, t, e);
      HeldIsNamed(m, run.resolved, t, Subject(e.kind, run.resolved[(e.kind, e.key)]), b);
      assert false;
    }
  }

  // Where subjects and roles are told apart by name, a converged tenant has no such binding.
  lemma ConvergedNarrowless(m: Manifest, w: World, cs: seq<PlannedChange>)
    requires Fresh(w) && Plan(m, w.tenant) == Ok(cs) && Apply(m, w).value.1.Complete() && PageRoom(w.tenant, cs)
    requires BindingNamesDistinct(m) && Converged(m, Apply(m, w).value.0.world.tenant)
    ensures TwinsNarrowless(m, cs)
  {
    PlanFinds(m, w, cs);
    CompleteTwins(m, w, cs);
    SubjectsTwinless(m, cs);
    forall i, j | 0 <= i < j < |cs| && Twins(cs, i, j) && cs[i].entity.kind.Resource?
      ensures !Narrows(m, cs[i].entity.key)
    {
      if Narrows(m, cs[i].entity.key) {
        var b :| OwnBinding(m, b) && b.resource == Some(cs[i].entity.key);
        var e, y :| e in m && IsSubject(e.kind) && 0 <= y < |e.roles| && e.roles[y] == b;
        var x := IndexInPlan(m, w, cs, e);
        CaseUnconverged(m, w, cs, Case(i, j, x, y));
        assert false;
      }
    }
  }

  lemma SubjectsTwinless(m: Manifest, cs: seq<PlannedChange>)
    requires PlanOf(m, cs) && BindingNamesDistinct(m)
    ensures forall i, j :: 0 <= i < j < |cs| && Twins(cs, i, j) ==> !IsSubject(cs[i].entity.kind)
  {
    forall i, j | 0 <= i < j < |cs| && Twins(cs, i, j) ensures !IsSubject(cs[i].entity.kind) {
      EntityAt(m, cs, i);
      EntityAt(m, cs, j);
    }
  }

  // Convergence on one page with no hypothesis on the names of resources and permissions.
  lemma ConvergenceOfSharedResources(m: Manifest, w: World, cs: seq<PlannedChange>)
    requires Fresh(w) && Plan(m, w.tenant) == Ok(cs) && Apply(m, w).value.1.Complete()
    requires PageRoom(w.tenant, cs) && BindingNamesDistinct(m)
    ensures Converged(m, Apply(m, w).value.0.world.tenant) <==>
            && MetadataOk(m) && CapStable(m, w.tenant, cs) && NamesAgree(m)
            && TwinsAgree(cs) && TwinsNarrowless(m, cs)
  {
    PlanFinds(m, w, cs);
    SubjectsTwinless(m, cs);
    if Converged(m, Apply(m, w).value.0.world.tenant) {
      ConvergedNarrowless(m, w, cs);
    }
    if TwinsNarrowless(m, cs) {
      ConvergenceOnOnePage(m, w, cs);
    }
  }
}
