// What a manifest does not name, an apply does not touch: role bindings.
module ManifestUntouched {
  import opened Prelude
  import opened ManifestTypes
  import opened Tenant
  import opened ManifestPlan
  import opened ManifestApply
  import opened ManifestNetwork
  import opened ManifestBindings
  import opened ManifestPerform
  import opened ManifestRun

  // The manifest binds the role to the subject, both by the names the plan matched.
  ghost predicate NamesBinding(m: Manifest, t: TenantState, s: Subject, role: Id)
  {
    exists e, i :: e in m && e.kind == s.kind && IsSubject(e.kind) && 0 <= i < |e.roles|
                   && LocatedId(t, e.kind, MatchName(e)) == Some(s.id) && RoleIs(m, t, e.roles[i], role)
  }

  predicate RoleIs(m: Manifest, t: TenantState, b: RoleBinding, role: Id)
  {
    var r := FindKeyOfKind(m, b.role, Role);
    r.Some? && LocatedId(t, Role, r.value.name) == Some(role)
  }

  // Every resolved role is the one the plan found, or one created since.
  ghost predicate RolesKnown(m: Manifest, t0: TenantState, resolved: ResolvedIds)
  {
    forall key :: (Role, key) in resolved ==>
      || resolved[(Role, key)] >= t0.nextId
      || (FindKeyOfKind(m, key, Role).Some?
          && LocatedId(t0, Role, FindKeyOfKind(m, key, Role).value.name) == Some(resolved[(Role, key)]))
  }

  // Bindings of existing subjects to existing roles that the manifest does not name are as before.
  ghost predicate Untouched(m: Manifest, t0: TenantState, t: TenantState)
  {
    && t0.nextId <= t.nextId
    && forall s: Subject, role: Id :: s.id < t0.nextId && role < t0.nextId && !NamesBinding(m, t0, s, role) ==>
         Bound(t, s, role) == Bound(t0, s, role)
  }

  // The id a row write answers with: the new row's for a Create, the planned one otherwise.
  lemma WrittenId(w: World, c: PlannedChange, parent: Option<Id>)
    requires !IsNetwork(c.entity.kind)
    ensures var (w', r) := WriteRow(w, c.entity, c, parent);
            && w'.tenant.bindings == w.tenant.bindings && w.tenant.nextId <= w'.tenant.nextId
            && (r.Ok? ==> r.value == if c.action.Create? then w.tenant.nextId else c.id.GetOr(0))
  {
    var e, id := c.entity, c.id.GetOr(0);
    if c.action.Create? {
      CreateBodyStates(e, parent);
      SentRow(w, CreateBody(e, parent));
    } else if UpdateBody(e, id, parent).Some? {
      UpdateBodyShape(e, id, parent);
      SentRow(w, UpdateBody(e, id, parent).value);
    }
  }

  lemma SentRow(w: World, body: Request)
    requires (body.CreateRow? || body.UpdateRow?) && !IsNetwork(body.kind)
    ensures var (w', r) := Send(w, body);
            && w'.tenant.bindings == w.tenant.bindings && w.tenant.nextId <= w'.tenant.nextId
            && (r.Accepted? ==> r.id == if body.CreateRow? then w.tenant.nextId else body.id)
  {
  }

  ghost predicate PlannedIn(m: Manifest, t0: TenantState, c: PlannedChange)
  {
    && Coherent(m) && c.entity in m && Plannable(c) && HasSpec(c.entity)
    && PlanEntity(m, t0, c.entity) == Ok(c)
  }

  lemma ResolvedIsRole(m: Manifest, t0: TenantState, b: RoleBinding, resolved: ResolvedIds, role: Id)
    requires RolesKnown(m, t0, resolved) && role < t0.nextId
    requires (Role, b.role) in resolved && resolved[(Role, b.role)] == role
    ensures RoleIs(m, t0, b, role)
  {
  }

  // A role the entity names is one the manifest binds to the subject the plan matched.
  lemma NamedSoBound(m: Manifest, t0: TenantState, c: PlannedChange, resolved: ResolvedIds, id: Id, role: Id)
    requires PlannedIn(m, t0, c) && IsSubject(c.entity.kind) && RolesKnown(m, t0, resolved)
    requires !c.action.Create? && id == c.id.GetOr(0) && role < t0.nextId
    ensures NamesRole(resolved, c.entity.roles, role) ==> NamesBinding(m, t0, Subject(c.entity.kind, id), role)
  {
    var e := c.entity;
    if i :| 0 <= i < |e.roles| && (Role, e.roles[i].role) in resolved && resolved[(Role, e.roles[i].role)] == role {
      ResolvedIsRole(m, t0, e.roles[i], resolved, role);
    }
  }

  lemma BindingsUntouched(m: Manifest, t0: TenantState, c: PlannedChange, resolved: ResolvedIds, w: World, id: Id)
    requires PlannedIn(m, t0, c) && !IsNetwork(c.entity.kind)
    requires Untouched(m, t0, w.tenant) && RolesKnown(m, t0, resolved)
    requires if c.action.Create? then id >= t0.nextId else id == c.id.GetOr(0)
    ensures Untouched(m, t0, PerformBindings(m, resolved, w, c.entity, id, c.action.Create?).0.tenant)
  {
    var e := c.entity;
    PerformBindingsEffect(m, resolved, w, e, id, c.action.Create?);
    var w' := PerformBindings(m, resolved, w, e, id, c.action.Create?).0;
    forall s: Subject, role: Id | s.id < t0.nextId && role < t0.nextId && !NamesBinding(m, t0, s, role)
      ensures Bound(w'.tenant, s, role) == Bound(t0, s, role)
    {
      assert Bound(w.tenant, s, role) == Bound(t0, s, role);
      if s == Subject(e.kind, id) && IsSubject(e.kind) {
        NamedSoBound(m, t0, c, resolved, id, role);
      }
    }
  }

  lemma NamedUntouched(m: Manifest, t0: TenantState, c: PlannedChange, run: Run)
    requires PlannedIn(m, t0, c) && !IsNetwork(c.entity.kind)
    requires Untouched(m, t0, run.world.tenant) && RolesKnown(m, t0, run.resolved)
    ensures var o := PerformNamed(m, c, run);
            Untouched(m, t0, o.run.world.tenant) && RolesKnown(m, t0, o.run.resolved)
  {
    var e := c.entity;
    var parent := ParentId(m, run.resolved, e);
    if parent.Ok? {
      WrittenId(run.world, c, parent.value);
      var (w1, written) := WriteRow(run.world, e, c, parent.value);
      if written.Ok? {
        var resolved := run.resolved[(e.kind, e.key) := written.value];
        FindKeyOfKindUnique(m, e);
        assert RolesKnown(m, t0, resolved);
        BindingsUntouched(m, t0, c, resolved, w1, written.value);
      }
    }
  }

  lemma NetworkUntouched(m: Manifest, t0: TenantState, c: PlannedChange, run: Run)
    requires Plannable(c) && IsNetwork(c.entity.kind)
    requires Untouched(m, t0, run.world.tenant) && RolesKnown(m, t0, run.resolved)
    ensures var o := Perform(m, c, run);
            Untouched(m, t0, o.run.world.tenant) && RolesKnown(m, t0, o.run.resolved)
  {
    var o := Perform(m, c, run);
    NetworkKeepsNamed(m, c, run);
    forall s: Subject, role: Id ensures Bound(o.run.world.tenant, s, role) == Bound(run.world.tenant, s, role) {
    }
  }

  lemma {:induction false} RunUntouched(m: Manifest, t0: TenantState, cs: seq<PlannedChange>, run: Run)
    requires forall c :: c in cs ==> PlannedIn(m, t0, c)
    requires forall c :: c in cs ==> Plannable(c)
    requires Untouched(m, t0, run.world.tenant) && RolesKnown(m, t0, run.resolved)
    ensures Untouched(m, t0, ApplySeq(m, cs, run).0.world.tenant)
    decreases |cs|
  {
    if cs != [] {
      var c := cs[0];
      assert PlannedIn(m, t0, c);
      if IsNetwork(c.entity.kind) {
        NetworkUntouched(m, t0, c, run);
      } else {
        NamedUntouched(m, t0, c, run);
      }
      var o := Perform(m, c, run);
      if o.failure.None? {
        RunUntouched(m, t0, cs[1..], o.run);
      }
    }
  }

  lemma PlanPlannedIn(m: Manifest, w: World, cs: seq<PlannedChange>)
    requires Plan(m, w.tenant) == Ok(cs)
    ensures PlanOf(m, cs)
    ensures forall i :: 0 <= i < |cs| ==> PlannedIn(m, w.tenant, cs[i])
  {
    PlanIsPlanOf(m, w.tenant);
    OrderedSpecs(m);
    forall i | 0 <= i < |cs| ensures PlannedIn(m, w.tenant, cs[i]) {
      EntityAt(m, cs, i);
    }
  }

  lemma PlannedRole(m: Manifest, t0: TenantState, c: PlannedChange)
    requires PlannedIn(m, t0, c) && c.entity.kind.Role? && c.id.Some?
    ensures FindKeyOfKind(m, c.entity.key, Role) == Some(c.entity)
    ensures LocatedId(t0, Role, c.entity.name) == c.id
  {
    FindKeyOfKindUnique(m, c.entity);
  }

  lemma SeedRolesKnown(m: Manifest, w: World, cs: seq<PlannedChange>)
    requires Plan(m, w.tenant) == Ok(cs)
    ensures RolesKnown(m, w.tenant, SeedResolved(cs))
  {
    PlanPlannedIn(m, w, cs);
    PlanKeysApart(m, cs);
    SeedResolvedKeys(cs);
    forall key | (Role, key) in SeedResolved(cs)
      ensures FindKeyOfKind(m, key, Role).Some?
              && LocatedId(w.tenant, Role, FindKeyOfKind(m, key, Role).value.name) == Some(SeedResolved(cs)[(Role, key)])
    {
      var i :| 0 <= i < |cs| && (Role, key) == (cs[i].entity.kind, cs[i].entity.key);
      PlannedRole(m, w.tenant, cs[i]);
    }
  }

  // Under any pattern of failures, a binding the manifest does not name is left as it was.
  lemma UnnamedBindingsUntouched(m: Manifest, w: World)
    requires Apply(m, w).Ok?
    ensures Untouched(m, w.tenant, Apply(m, w).value.0.world.tenant)
  {
    var cs := Plan(m, w.tenant).value;
    PlanPlannable(m, w.tenant);
    PendingElements(cs);
    PlanPlannedIn(m, w, cs);
    SeedRolesKnown(m, w, cs);
    RunUntouched(m, w.tenant, Pending(cs), Run(w, SeedResolved(cs), SeedVersions(cs)));
  }
}
