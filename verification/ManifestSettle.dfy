// A named change that is performed leaves its entity settled.
module ManifestSettle {
  import opened Prelude
  import opened ManifestTypes
  import opened ManifestOrder
  import opened Tenant
  import opened ManifestPlan
  import opened ManifestApply
  import opened ManifestNetwork
  import opened ManifestNamed
  import opened ManifestBindings
  import opened ManifestPerform

  // A binding some subject declares.
  ghost predicate OwnBinding(m: Manifest, b: RoleBinding)
  {
    exists e, i :: e in m && IsSubject(e.kind) && 0 <= i < |e.roles| && e.roles[i] == b
  }

  // Some declared binding is narrowed to the resource of this key.
  ghost predicate Narrows(m: Manifest, key: string)
  {
    exists b :: OwnBinding(m, b) && b.resource == Some(key)
  }

  // Every id apply has resolved is the one a plan would find now. Of a resource this is asked only
  // where a binding needs its id.
  ghost predicate NamedSound(m: Manifest, t: TenantState, resolved: ResolvedIds)
  {
    forall e :: e in m && !IsNetwork(e.kind) && (e.kind, e.key) in resolved && (e.kind.Resource? ==> Narrows(m, e.key)) ==>
      LocatedId(t, e.kind, MatchName(e)) == Some(resolved[(e.kind, e.key)])
  }

  // A Create that overrides no resolved resource a binding needs.
  ghost predicate Spares(m: Manifest, resolved: ResolvedIds, c: PlannedChange)
  {
    c.action.Create? ==>
      forall e :: e in m && e.kind.Resource? && e != c.entity && SameName(e, c.entity) && (Resource, e.key) in resolved ==>
        !Narrows(m, e.key)
  }

  // There is room on the page for the row a Create adds.
  predicate RoomFor(t: TenantState, c: PlannedChange)
  {
    c.action.Create? ==> |Table(t, c.entity.kind)| < SCAN_LIMIT
  }

  // The written row is the one the next scan finds.
  lemma CreatedIsLocated(t: TenantState, t': TenantState, c: PlannedChange, id: Id)
    requires !IsNetwork(c.entity.kind) && NamedConsistent(t, c) && c.action.Create? && RoomFor(t, c)
    requires NamedStep(t, t', c.entity) && RowWritten(t, t', c, id)
    ensures Locate(t', c.entity.kind, MatchName(c.entity)) == Some(WrittenAt(t, c))
    ensures !Ambiguous(t', c.entity)
  {
    var e, name := c.entity, MatchName(c.entity);
    var rows, rows' := Table(t, e.kind), Table(t', e.kind);
    assert Visible(rows) == rows && Visible(rows') == rows';
    assert rows' == rows + [rows'[|rows|]];
    LastNamedAt(rows', name, |rows|);
    if e.kind.ServiceAccount? { FirstNamedAt(rows', name, |rows|); }
  }

  lemma UpdatedIsLocated(t: TenantState, t': TenantState, c: PlannedChange, id: Id)
    requires !IsNetwork(c.entity.kind) && NamedConsistent(t, c) && !c.action.Create?
    requires NamedStep(t, t', c.entity) && RowWritten(t, t', c, id)
    ensures Locate(t', c.entity.kind, MatchName(c.entity)) == Some(WrittenAt(t, c))
    ensures !Ambiguous(t', c.entity)
  {
    var rows, rows' := Table(t, c.entity.kind), Table(t', c.entity.kind);
    SameNamesFound(Visible(rows), Visible(rows'), MatchName(c.entity));
    AmbiguousStays(t, t', c.entity, c.entity);
  }

  lemma WrittenIsLocated(t: TenantState, t': TenantState, c: PlannedChange, id: Id)
    requires !IsNetwork(c.entity.kind) && NamedConsistent(t, c) && RoomFor(t, c)
    requires NamedStep(t, t', c.entity) && RowWritten(t, t', c, id)
    ensures Locate(t', c.entity.kind, MatchName(c.entity)) == Some(WrittenAt(t, c))
    ensures !Ambiguous(t', c.entity)
  {
    if c.action.Create? {
      CreatedIsLocated(t, t', c, id);
    } else {
      UpdatedIsLocated(t, t', c, id);
    }
  }

  lemma NamedSoundAfter(m: Manifest, t: TenantState, t': TenantState, resolved: ResolvedIds, c: PlannedChange, id: Id)
    requires Coherent(m) && c.entity in m && !IsNetwork(c.entity.kind)
    requires NamedSound(m, t, resolved) && NamedConsistent(t, c) && RoomFor(t, c) && Spares(m, resolved, c)
    requires NamedStep(t, t', c.entity) && RowWritten(t, t', c, id)
    ensures NamedSound(m, t', resolved[(c.entity.kind, c.entity.key) := id])
  {
    WrittenIsLocated(t, t', c, id);
    var resolved' := resolved[(c.entity.kind, c.entity.key) := id];
    forall e | e in m && !IsNetwork(e.kind) && (e.kind, e.key) in resolved' && (e.kind.Resource? ==> Narrows(m, e.key))
      ensures LocatedId(t', e.kind, MatchName(e)) == Some(resolved'[(e.kind, e.key)])
    {
      if e != c.entity {
        CoherentPair(m, e, c.entity);
        LocatedIdStays(t, t', c.entity, e.kind, MatchName(e));
      }
    }
  }

  // ---- role bindings ----

  ghost predicate IsRole(t: TenantState, name: string, role: Id)
  {
    exists i :: 0 <= i < |t.roles| && t.roles[i].name == name && t.roles[i].id == role
  }

  // Every resolved role is the server role of that name, on the scanned page or past it.
  ghost predicate RolesReal(m: Manifest, t: TenantState, resolved: ResolvedIds)
  {
    forall e :: e in m && e.kind.Role? && (Role, e.key) in resolved ==> IsRole(t, e.name, resolved[(Role, e.key)])
  }

  lemma SoundIsReal(m: Manifest, t: TenantState, resolved: ResolvedIds)
    requires NamedSound(m, t, resolved)
    ensures RolesReal(m, t, resolved)
  {
    forall e | e in m && e.kind.Role? && (Role, e.key) in resolved ensures IsRole(t, e.name, resolved[(Role, e.key)]) {
      var i := Locate(t, Role, e.name).value;
      assert Table(t, Role) == t.roles && t.roles[i].name == e.name;
    }
  }

  // So its assignment is the one listing shows under the name.
  lemma HeldIsBound(t: TenantState, s: Subject, name: string, role: Id)
    requires NamedWf(t) && IsRole(t, name, role)
    ensures HeldRole(t, s, name) == Bound(t, s, role)
  {
    var i :| 0 <= i < |t.roles| && t.roles[i].name == name && t.roles[i].id == role;
    LastNamedAt(t.roles, name, i);
  }

  lemma RolesResolvedApart(m: Manifest, t: TenantState, resolved: ResolvedIds, bs: seq<RoleBinding>)
    requires Coherent(m) && DistinctRoleNames(m) && NamedWf(t) && RolesReal(m, t, resolved) && BindingsOk(m, bs)
    ensures RolesApart(resolved, bs)
  {
    forall i, j | 0 <= i < j < |bs| && (Role, bs[i].role) in resolved && (Role, bs[j].role) in resolved
      ensures resolved[(Role, bs[i].role)] != resolved[(Role, bs[j].role)]
    {
      assert BindingOk(m, bs[i]) && BindingOk(m, bs[j]);
      var a, b := FindKeyOfKind(m, bs[i].role, Role).value, FindKeyOfKind(m, bs[j].role, Role).value;
      assert a.name != b.name;
      assert IsRole(t, a.name, resolved[(Role, a.key)]) && IsRole(t, b.name, resolved[(Role, b.key)]);
      assert Table(t, Role) == t.roles && RowsWf(Table(t, Role), t.nextId);
    }
  }

  // What the reconciler reads of a subject is what the server holds of it.
  lemma CurrentRead(m: Manifest, resolved: ResolvedIds, t: TenantState, s: Subject, current: map<string, Assignment>,
                    b: RoleBinding, isNew: bool)
    requires NamedWf(t) && RolesReal(m, t, resolved) && BindingOk(m, b)
    requires current == if isNew then map[] else HeldRoles(t, s)
    requires isNew ==> forall role :: Bound(t, s, role).None?
    ensures CurrentIsTrue(m, resolved, t, s, current, b)
  {
    var role := FindKeyOfKind(m, b.role, Role).value;
    if (Role, b.role) in resolved {
      HeldIsBound(t, s, role.name, resolved[(Role, b.role)]);
      HeldRolesLookup(t, s, role.name);
    }
  }

  // The resource a binding is narrowed to, as the plan finds it.
  function NamedResource(m: Manifest, t: TenantState, b: RoleBinding): Option<Id>
  {
    var name := ResourceName(m, b);
    if name.Some? then LocatedId(t, Resource, name.value) else None
  }

  lemma WantedIsNamed(m: Manifest, resolved: ResolvedIds, t: TenantState, b: RoleBinding)
    requires NamedSound(m, t, resolved) && BindingOk(m, b) && BindingResolved(resolved, b) && OwnBinding(m, b)
    ensures WantedResource(resolved, b) == NamedResource(m, t, b)
  {
  }

  // A binding in force by the resolved ids is one a plan finds held.
  lemma InForceIsHeld(m: Manifest, resolved: ResolvedIds, t: TenantState, s: Subject, b: RoleBinding)
    requires NamedWf(t) && NamedSound(m, t, resolved) && BindingOk(m, b) && BindingIn(resolved, t, s, b)
    requires OwnBinding(m, b)
    ensures BindingHeld(m, t, s, b)
  {
    var role := FindKeyOfKind(m, b.role, Role).value;
    SoundIsReal(m, t, resolved);
    HeldIsBound(t, s, role.name, resolved[(Role, b.role)]);
    WantedIsNamed(m, resolved, t, b);
    NamedIsHeld(m, t, s, b);
  }

  lemma NamedIsHeld(m: Manifest, t: TenantState, s: Subject, b: RoleBinding)
    requires BindingOk(m, b) && (b.resource.Some? ==> NamedResource(m, t, b).Some?)
    requires var held := HeldRole(t, s, FindKeyOfKind(m, b.role, Role).value.name);
             held.Some? && Satisfied(held.value, NamedResource(m, t, b), b.Narrowed())
    ensures BindingHeld(m, t, s, b)
  {
  }

  // Different ids are different roles, and roles have different names.
  lemma RoleOfId(t: TenantState, a: string, b: string, role: Id)
    requires NamedWf(t) && IsRole(t, a, role) && IsRole(t, b, role)
    ensures a == b
  {
    assert Table(t, Role) == t.roles && RowsWf(Table(t, Role), t.nextId);
  }

  lemma AlikeResolved(m: Manifest, t: TenantState, resolved: ResolvedIds, x: RoleBinding, y: RoleBinding)
    requires NamedWf(t) && NamedSound(m, t, resolved) && BindingOk(m, x) && BindingOk(m, y)
    requires BindingsAlike(m, x, y) && OwnBinding(m, x) && OwnBinding(m, y)
    ensures Alike(resolved, x, y)
  {
    if BindingResolved(resolved, x) && BindingResolved(resolved, y)
       && resolved[(Role, x.role)] == resolved[(Role, y.role)] {
      SoundIsReal(m, t, resolved);
      var p, q := FindKeyOfKind(m, x.role, Role).value, FindKeyOfKind(m, y.role, Role).value;
      RoleOfId(t, p.name, q.name, resolved[(Role, x.role)]);
      WantedIsNamed(m, resolved, t, x);
      WantedIsNamed(m, resolved, t, y);
    }
  }

  lemma OnlySubjectKeeps(m: Manifest, t: TenantState, t': TenantState, s: Subject, resolved: ResolvedIds)
    requires OnlySubject(t, t', s)
    ensures forall k :: Table(t', k) == Table(t, k)
    ensures NamedSound(m, t, resolved) ==> NamedSound(m, t', resolved)
    ensures forall k, name :: Locate(t', k, name) == Locate(t, k, name)
    ensures forall e :: Ambiguous(t', e) == Ambiguous(t, e)
  {
    assert forall k :: Table(t', k) == Table(t, k);
  }

  // What the reconciler is given to start from.
  lemma CurrentGood(m: Manifest, resolved: ResolvedIds, w: World, e: Entity, id: Id, create: bool)
    requires Coherent(m) && e in m && IsSubject(e.kind)
    requires NamedWf(w.tenant) && RolesReal(m, w.tenant, resolved)
    requires create ==> forall role :: Bound(w.tenant, Subject(e.kind, id), role).None?
    ensures var (w1, current) := CurrentBindings(w, Subject(e.kind, id), create);
            && w1.tenant == w.tenant
            && (current.Ok? ==> current.value == if create then map[] else HeldRoles(w.tenant, Subject(e.kind, id)))
            && (current.Ok? ==> forall i :: 0 <= i < |e.roles| ==>
                  CurrentIsTrue(m, resolved, w.tenant, Subject(e.kind, id), current.value, e.roles[i]))
            && (forall i :: 0 <= i < |e.roles| ==> BindingOk(m, e.roles[i]))
  {
    assert EntityOk(m, e);
    var s := Subject(e.kind, id);
    SendListRoles(w, s);
    var (w1, current) := CurrentBindings(w, s, create);
    if current.Ok? {
      forall i | 0 <= i < |e.roles| ensures CurrentIsTrue(m, resolved, w.tenant, s, current.value, e.roles[i]) {
        CurrentRead(m, resolved, w.tenant, s, current.value, e.roles[i], create);
      }
    }
  }

  // Whatever fails, a subject's bindings are reported truthfully and keep their tenant scopes,
  // given what apply believes of the tenant.
  lemma BindingsReport(m: Manifest, resolved: ResolvedIds, w: World, e: Entity, id: Id, create: bool)
    requires Coherent(m) && e in m && IsSubject(e.kind)
    requires NamedWf(w.tenant) && RolesReal(m, w.tenant, resolved)
    requires create ==> forall role :: Bound(w.tenant, Subject(e.kind, id), role).None?
    ensures var (w', f) := PerformBindings(m, resolved, w, e, id, create);
            && (f.Some? ==> ReportIsTrue(w.tenant, w'.tenant, Subject(e.kind, id), f.value))
            && NoneWidened(w.tenant, w'.tenant) && (f.None? ==> Carried(w.tenant, w'.tenant))
  {
    if e.roles != [] {
      CurrentGood(m, resolved, w, e, id, create);
      var (w1, current) := CurrentBindings(w, Subject(e.kind, id), create);
      if current.Ok? {
        assert forall i :: 0 <= i < |e.roles| ==> BindingOk(m, e.roles[i]);
        ReconcileReports(m, resolved, w.tenant, w1, Subject(e.kind, id), current.value, e.roles);
        ReconcileCarries(m, resolved, w.tenant, w1, Subject(e.kind, id), current.value, e.roles);
      }
    }
  }

  // Where roles are told apart by name, success leaves every declared binding in force.
  lemma BindingsDone(m: Manifest, resolved: ResolvedIds, w: World, e: Entity, id: Id, create: bool)
    requires Coherent(m) && DistinctRoleNames(m) && e in m && IsSubject(e.kind)
    requires NamedWf(w.tenant) && RolesReal(m, w.tenant, resolved)
    requires create ==> forall role :: Bound(w.tenant, Subject(e.kind, id), role).None?
    requires PerformBindings(m, resolved, w, e, id, create).1.None?
    ensures forall i :: 0 <= i < |e.roles| ==>
              BindingIn(resolved, PerformBindings(m, resolved, w, e, id, create).0.tenant, Subject(e.kind, id), e.roles[i])
  {
    if e.roles != [] {
      CurrentGood(m, resolved, w, e, id, create);
      var (w1, current) := CurrentBindings(w, Subject(e.kind, id), create);
      assert EntityOk(m, e);
      RolesResolvedApart(m, w.tenant, resolved, e.roles);
      ReconcileOutcome(m, resolved, w1, Subject(e.kind, id), current.value, e.roles);
    }
  }

  // After a subject's bindings were reconciled without failure, they are all in force, even where
  // roles share names, as long as the bindings agree.
  lemma BindingsInForce(m: Manifest, resolved: ResolvedIds, w: World, e: Entity, id: Id, create: bool)
    requires Coherent(m) && e in m && IsSubject(e.kind) && BindingsAgree(m, e, e)
    requires NamedWf(w.tenant) && NamedSound(m, w.tenant, resolved)
    requires create ==> forall role :: Bound(w.tenant, Subject(e.kind, id), role).None?
    requires PerformBindings(m, resolved, w, e, id, create).1.None?
    ensures forall i :: 0 <= i < |e.roles| ==>
              BindingIn(resolved, PerformBindings(m, resolved, w, e, id, create).0.tenant, Subject(e.kind, id), e.roles[i])
  {
    if e.roles != [] {
      var s := Subject(e.kind, id);
      SoundIsReal(m, w.tenant, resolved);
      CurrentGood(m, resolved, w, e, id, create);
      var (w1, current) := CurrentBindings(w, s, create);
      forall i, j | 0 <= i < |e.roles| && 0 <= j < |e.roles| ensures Alike(resolved, e.roles[i], e.roles[j]) {
        assert OwnBinding(m, e.roles[i]) && OwnBinding(m, e.roles[j]);
        AlikeResolved(m, w.tenant, resolved, e.roles[i], e.roles[j]);
      }
      assert e.roles[0..] == e.roles;
      ReconcileHolds(m, resolved, w1, s, current.value, e.roles, 0);
    }
  }

  lemma BindingsSettle(m: Manifest, resolved: ResolvedIds, w: World, e: Entity, id: Id, create: bool)
    requires Coherent(m) && e in m && IsSubject(e.kind) && BindingsAgree(m, e, e)
    requires NamedWf(w.tenant) && NamedSound(m, w.tenant, resolved)
    requires create ==> forall role :: Bound(w.tenant, Subject(e.kind, id), role).None?
    requires PerformBindings(m, resolved, w, e, id, create).1.None?
    requires NamedWf(PerformBindings(m, resolved, w, e, id, create).0.tenant)
    ensures BindingsHeld(m, PerformBindings(m, resolved, w, e, id, create).0.tenant, Subject(e.kind, id), e.roles)
  {
    var w2 := PerformBindings(m, resolved, w, e, id, create).0;
    BindingsInForce(m, resolved, w, e, id, create);
    PerformBindingsEffect(m, resolved, w, e, id, create);
    OnlySubjectKeeps(m, w.tenant, w2.tenant, Subject(e.kind, id), resolved);
    assert EntityOk(m, e);
    forall i | 0 <= i < |e.roles| ensures BindingHeld(m, w2.tenant, Subject(e.kind, id), e.roles[i]) {
      assert BindingOk(m, e.roles[i]) && OwnBinding(m, e.roles[i]);
      InForceIsHeld(m, resolved, w2.tenant, Subject(e.kind, id), e.roles[i]);
    }
  }

  // ---- one named change ----

  lemma PerformNamedSettles(m: Manifest, c: PlannedChange, run: Run)
    requires Coherent(m) && c.entity in m && !IsNetwork(c.entity.kind) && HasSpec(c.entity)
    requires BindingsAgree(m, c.entity, c.entity) && !c.action.Unchanged?
    requires NamedWf(run.world.tenant) && NamedConsistent(run.world.tenant, c) && RoomFor(run.world.tenant, c)
    requires NamedSound(m, run.world.tenant, run.resolved) && MetadataParses(c.entity)
    requires Spares(m, run.resolved, c)
    requires PerformNamed(m, c, run).failure.None?
    ensures var o := PerformNamed(m, c, run);
            Settled(m, o.run.world.tenant, c.entity) && NamedSound(m, o.run.world.tenant, o.run.resolved)
  {
    var e, t := c.entity, run.world.tenant;
    var parent := ParentId(m, run.resolved, e).value;
    var (w1, written) := WriteRow(run.world, e, c, parent);
    WriteRowEffect(run.world, c, parent);
    var id := written.value;
    var resolved := run.resolved[(e.kind, e.key) := id];
    NamedSoundAfter(m, t, w1.tenant, run.resolved, c, id);
    WrittenIsLocated(t, w1.tenant, c, id);
    var (w2, f) := PerformBindings(m, resolved, w1, e, id, c.action.Create?);
    PerformBindingsEffect(m, resolved, w1, e, id, c.action.Create?);
    StepThenBindings(t, w1.tenant, w2.tenant, e, id, WrittenAt(t, c));
    OnlySubjectKeeps(m, w1.tenant, w2.tenant, Subject(e.kind, id), resolved);
    if IsSubject(e.kind) {
      if c.action.Create? { NewSubjectUnbound(t, w1.tenant, Subject(e.kind, id)); }
      BindingsSettle(m, resolved, w1, e, id, c.action.Create?);
    }
  }

  lemma NewSubjectUnbound(t: TenantState, t': TenantState, s: Subject)
    requires NamedWf(t) && t'.bindings == t.bindings && s.id >= t.nextId
    ensures forall role: Id :: Bound(t', s, role).None?
  {
    forall role: Id ensures Bound(t', s, role).None? {
      assert (s, role) !in t.bindings;
    }
  }

  // ---- a second declaration of the same name ----

  // The id an Update answers with is the one its name was found at.
  lemma UpdatedId(t: TenantState, t1: TenantState, c: PlannedChange, id: Id)
    requires !IsNetwork(c.entity.kind) && NamedConsistent(t, c) && !c.action.Create?
    requires NamedStep(t, t1, c.entity) && RowWritten(t, t1, c, id)
    ensures LocatedId(t, c.entity.kind, MatchName(c.entity)) == Some(id)
  {
  }

  lemma HeldAsNamed(m: Manifest, t: TenantState, s: Subject, b: RoleBinding)
    requires BindingOk(m, b) && BindingHeld(m, t, s, b)
    ensures var held := HeldRole(t, s, FindKeyOfKind(m, b.role, Role).value.name);
            held.Some? && Satisfied(held.value, NamedResource(m, t, b), b.Narrowed())
  {
  }

  // A binding held as b asks is held as every binding alike asks, so the reconciler leaves its role.
  lemma HeldLeavesRole(m: Manifest, resolved: ResolvedIds, t: TenantState, s: Subject, b: RoleBinding, x: RoleBinding, role: Id)
    requires NamedWf(t) && NamedSound(m, t, resolved) && BindingOk(m, b) && BindingOk(m, x) && BindingsAlike(m, b, x)
    requires BindingHeld(m, t, s, b) && IsRole(t, FindKeyOfKind(m, b.role, Role).value.name, role) && OwnBinding(m, x)
    ensures LeavesRole(m, resolved, HeldRoles(t, s), x, role)
  {
    if BindingResolved(resolved, x) && resolved[(Role, x.role)] == role {
      var p, q := FindKeyOfKind(m, b.role, Role).value, FindKeyOfKind(m, x.role, Role).value;
      SoundIsReal(m, t, resolved);
      RoleOfId(t, p.name, q.name, role);
      HeldRolesLookup(t, s, q.name);
      HeldAsNamed(m, t, s, b);
      WantedIsNamed(m, resolved, t, x);
    }
  }

  lemma SharedBindingsLeft(m: Manifest, resolved: ResolvedIds, w: World, e: Entity, other: Entity, id: Id, j: nat, role: Id)
    requires Coherent(m) && e in m && other in m && SameName(e, other) && IsSubject(e.kind) && BindingsAgree(m, e, other)
    requires NamedWf(w.tenant) && NamedSound(m, w.tenant, resolved)
    requires j < |e.roles| && BindingOk(m, e.roles[j]) && BindingHeld(m, w.tenant, Subject(e.kind, id), e.roles[j])
    requires IsRole(w.tenant, FindKeyOfKind(m, e.roles[j].role, Role).value.name, role)
    ensures Bound(PerformBindings(m, resolved, w, other, id, false).0.tenant, Subject(e.kind, id), role)
            == Bound(w.tenant, Subject(e.kind, id), role)
  {
    var s := Subject(e.kind, id);
    if other.roles != [] {
      assert EntityOk(m, other);
      SendListRoles(w, s);
      var (w1, current) := CurrentBindings(w, s, false);
      if current.Ok? {
        forall i | 0 <= i < |other.roles| ensures LeavesRole(m, resolved, current.value, other.roles[i], role) {
          assert BindingOk(m, other.roles[i]) && OwnBinding(m, other.roles[i]);
          assert BindingsAlike(m, e.roles[j], other.roles[i]);
          HeldLeavesRole(m, resolved, w.tenant, s, e.roles[j], other.roles[i], role);
        }
        ReconcileLeaves(m, resolved, w1, s, current.value, other.roles, role);
      }
    }
  }

  // The same role assignment under the same tables is held alike.
  lemma HeldAlike(m: Manifest, t: TenantState, t': TenantState, s: Subject, b: RoleBinding, role: Id)
    requires NamedWf(t) && BindingOk(m, b) && IsRole(t, FindKeyOfKind(m, b.role, Role).value.name, role)
    requires t'.roles == t.roles && t'.resources == t.resources && Bound(t', s, role) == Bound(t, s, role)
    ensures BindingHeld(m, t', s, b) <==> BindingHeld(m, t, s, b)
  {
    var name := FindKeyOfKind(m, b.role, Role).value.name;
    HeldIsBound(t, s, name, role);
    assert HeldRole(t', s, name) == HeldRole(t, s, name);
    assert Table(t', Resource) == Table(t, Resource);
  }

  // A binding that is held stays held while an entity of the same name, agreeing with it, is updated.
  lemma SharedBindingStays(m: Manifest, c: PlannedChange, run: Run, e: Entity, id: Id, j: nat)
    requires Coherent(m) && c.entity in m && e in m && SameName(e, c.entity) && IsSubject(e.kind)
    requires BindingsAgree(m, e, c.entity) && c.action.Update?
    requires NamedWf(run.world.tenant) && NamedConsistent(run.world.tenant, c)
    requires NamedSound(m, run.world.tenant, run.resolved) && c.id == Some(id)
    requires j < |e.roles| && BindingHeld(m, run.world.tenant, Subject(e.kind, id), e.roles[j])
    ensures BindingHeld(m, PerformNamed(m, c, run).run.world.tenant, Subject(e.kind, id), e.roles[j])
  {
    var t, other, b := run.world.tenant, c.entity, e.roles[j];
    assert EntityOk(m, e) && BindingOk(m, b);
    var role := t.roles[LastNamed(t.roles, FindKeyOfKind(m, b.role, Role).value.name)].id;
    SubjectRowUpdated(m, c, run, id, None);
    SubjectPerformed(m, c, run);
    var (w1, written) := WriteRow(run.world, other, c, None);
    HeldAlike(m, t, w1.tenant, Subject(e.kind, id), b, role);
    if written.Ok? {
      ReconciledStays(m, run.resolved[(other.kind, other.key) := id], w1, e, other, id, j, role);
    }
  }

  // An existing subject is performed in two parts: its row, then its bindings.
  lemma SubjectPerformed(m: Manifest, c: PlannedChange, run: Run)
    requires IsSubject(c.entity.kind) && c.action.Update?
    ensures var (w1, written) := WriteRow(run.world, c.entity, c, None);
            PerformNamed(m, c, run).run.world ==
            if written.Err? then w1
            else PerformBindings(m, run.resolved[(c.entity.kind, c.entity.key) := written.value], w1, c.entity,
                                 written.value, false).0
  {
  }

  // Writing the own row of a subject that exists leaves roles, resources and bindings alone.
  lemma SubjectRowUpdated(m: Manifest, c: PlannedChange, run: Run, id: Id, parent: Option<Id>)
    requires Coherent(m) && c.entity in m && IsSubject(c.entity.kind) && c.action.Update? && c.id == Some(id)
    requires NamedWf(run.world.tenant) && NamedConsistent(run.world.tenant, c)
    requires NamedSound(m, run.world.tenant, run.resolved)
    ensures var (w1, written) := WriteRow(run.world, c.entity, c, parent);
            var t, t1 := run.world.tenant, w1.tenant;
            && NamedWf(t1) && t1.bindings == t.bindings && t1.roles == t.roles && t1.resources == t.resources
            && (written.Ok? ==> written.value == id)
            && (written.Ok? ==> NamedSound(m, t1, run.resolved[(c.entity.kind, c.entity.key) := id]))
  {
    WriteRowEffect(run.world, c, parent);
    var (w1, written) := WriteRow(run.world, c.entity, c, parent);
    TablesOf(run.world.tenant, w1.tenant, c.entity);
    if written.Ok? {
      UpdatedId(run.world.tenant, w1.tenant, c, written.value);
      NamedSoundAfter(m, run.world.tenant, w1.tenant, run.resolved, c, id);
    }
  }

  lemma ReconciledStays(m: Manifest, resolved: ResolvedIds, w: World, e: Entity, other: Entity, id: Id, j: nat, role: Id)
    requires Coherent(m) && e in m && other in m && SameName(e, other) && IsSubject(e.kind) && BindingsAgree(m, e, other)
    requires NamedWf(w.tenant) && NamedSound(m, w.tenant, resolved)
    requires j < |e.roles| && BindingOk(m, e.roles[j]) && BindingHeld(m, w.tenant, Subject(e.kind, id), e.roles[j])
    requires IsRole(w.tenant, FindKeyOfKind(m, e.roles[j].role, Role).value.name, role)
    ensures BindingHeld(m, PerformBindings(m, resolved, w, other, id, false).0.tenant, Subject(e.kind, id), e.roles[j])
  {
    SharedBindingsLeft(m, resolved, w, e, other, id, j, role);
    PerformBindingsEffect(m, resolved, w, other, id, false);
    HeldAlike(m, w.tenant, PerformBindings(m, resolved, w, other, id, false).0.tenant, Subject(e.kind, id), e.roles[j], role);
  }

  lemma TablesOf(t: TenantState, t': TenantState, e: Entity)
    requires NamedStep(t, t', e) && IsSubject(e.kind)
    ensures t'.roles == t.roles && t'.resources == t.resources
  {
    assert Table(t', Role) == Table(t, Role) && Table(t', Resource) == Table(t, Resource);
  }

  // A settled entity stays settled while one of the same name, agreeing with it, is performed.
  lemma SharedStays(m: Manifest, c: PlannedChange, run: Run, e: Entity)
    requires Coherent(m) && c.entity in m && e in m && HasSpec(e) && SameName(e, c.entity)
    requires FieldsAgree(e, c.entity) && BindingsAgree(m, e, c.entity) && c.action.Update?
    requires NamedWf(run.world.tenant) && NamedConsistent(run.world.tenant, c)
    requires NamedSound(m, run.world.tenant, run.resolved)
    requires Settled(m, run.world.tenant, e)
    ensures Settled(m, PerformNamed(m, c, run).run.world.tenant, e)
  {
    var t, t' := run.world.tenant, PerformNamed(m, c, run).run.world.tenant;
    PerformNamedOutcome(m, c, run);
    SharedRowStays(t, t', e, c.entity);
    if IsSubject(e.kind) {
      forall j | 0 <= j < |e.roles| ensures BindingHeld(m, t', Subject(e.kind, c.id.value), e.roles[j]) {
        SharedBindingStays(m, c, run, e, c.id.value, j);
      }
    }
  }
}
