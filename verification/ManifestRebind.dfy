// What a whole apply does to bindings that existed before it: a failed rebind is reported
// truthfully, and no binding loses its tenant scope.
module ManifestRebind {
  import opened Prelude
  import opened ManifestTypes
  import opened Tenant
  import opened ManifestPlan
  import opened ManifestApply
  import opened ManifestNetwork
  import opened ManifestNamed
  import opened ManifestBindings
  import opened ManifestPerform
  import opened ManifestRun
  import opened ManifestSettle
  import opened ManifestConvergence
  import opened ManifestGrow
  import opened ManifestTheorems

  // What apply relies on when it binds roles, whatever the names are and whatever failed.
  ghost predicate RolesInv(m: Manifest, cs: seq<PlannedChange>, run: Run)
  {
    GrowInv(cs, run.world.tenant) && RolesReal(m, run.world.tenant, run.resolved)
  }

  lemma RolesStayReal(m: Manifest, t: TenantState, t': TenantState, resolved: ResolvedIds)
    requires RolesReal(m, t, resolved) && TablesGrow(t, t')
    ensures RolesReal(m, t', resolved)
  {
    assert Table(t, Role) == t.roles && Table(t', Role) == t'.roles;
    assert RowsGrow(Table(t, Role), Table(t', Role));
    forall e | e in m && e.kind.Role? && (Role, e.key) in resolved ensures IsRole(t', e.name, resolved[(Role, e.key)]) {
      var i :| 0 <= i < |t.roles| && t.roles[i].name == e.name && t.roles[i].id == resolved[(Role, e.key)];
      assert t'.roles[i].name == e.name;
    }
  }

  lemma WrittenRoleReal(m: Manifest, t: TenantState, t': TenantState, resolved: ResolvedIds, e: Entity, id: Id)
    requires Coherent(m) && e in m
    requires RolesReal(m, t, resolved) && TablesGrow(t, t') && HasRow(t', e.kind, id, MatchName(e))
    ensures RolesReal(m, t', resolved[(e.kind, e.key) := id])
  {
    RolesStayReal(m, t, t', resolved);
    var resolved' := resolved[(e.kind, e.key) := id];
    forall r | r in m && r.kind.Role? && (Role, r.key) in resolved' ensures IsRole(t', r.name, resolved'[(Role, r.key)]) {
      if (Role, r.key) == (e.kind, e.key) {
        if r != e { CoherentPair(m, r, e); }
        var i :| 0 <= i < |Table(t', Role)| && Table(t', Role)[i].id == id && Table(t', Role)[i].name == r.name;
        assert Table(t', Role) == t'.roles;
      }
    }
  }

  // ---- one change ----

  // The own row written, the roles resolved are still real.
  lemma WriteKeepsRoles(m: Manifest, c: PlannedChange, run: Run, parent: Option<Id>)
    requires Coherent(m) && c.entity in m && !IsNetwork(c.entity.kind)
    requires NamedWf(run.world.tenant) && Real(run.world.tenant, c) && RolesReal(m, run.world.tenant, run.resolved)
    ensures var (w1, written) := WriteRow(run.world, c.entity, c, parent);
            && RowGrows(run.world.tenant, w1.tenant, c, written)
            && (written.Ok? ==> RolesReal(m, w1.tenant, run.resolved[(c.entity.kind, c.entity.key) := written.value]))
  {
    WriteRowGrows(run.world, c, parent);
    var (w1, written) := WriteRow(run.world, c.entity, c, parent);
    if written.Ok? {
      WrittenRoleReal(m, run.world.tenant, w1.tenant, run.resolved, c.entity, written.value);
    }
  }

  lemma BindingsKeepRoles(m: Manifest, resolved: ResolvedIds, w: World, e: Entity, id: Id, create: bool)
    requires RolesReal(m, w.tenant, resolved)
    ensures RolesReal(m, PerformBindings(m, resolved, w, e, id, create).0.tenant, resolved)
  {
    PerformBindingsEffect(m, resolved, w, e, id, create);
    OnlySubjectKeeps(m, w.tenant, PerformBindings(m, resolved, w, e, id, create).0.tenant, Subject(e.kind, id), resolved);
    RolesStayReal(m, w.tenant, PerformBindings(m, resolved, w, e, id, create).0.tenant, resolved);
  }

  lemma NamedKeepsRoles(m: Manifest, c: PlannedChange, run: Run)
    requires Coherent(m) && c.entity in m && !IsNetwork(c.entity.kind)
    requires NamedWf(run.world.tenant) && Real(run.world.tenant, c) && RolesReal(m, run.world.tenant, run.resolved)
    requires PerformNamed(m, c, run).failure.None?
    ensures var o := PerformNamed(m, c, run); RolesReal(m, o.run.world.tenant, o.run.resolved)
  {
    var e := c.entity;
    var parent := ParentId(m, run.resolved, e).value;
    WriteKeepsRoles(m, c, run, parent);
    var (w1, written) := WriteRow(run.world, e, c, parent);
    var resolved := run.resolved[(e.kind, e.key) := written.value];
    BindingsKeepRoles(m, resolved, w1, e, written.value, c.action.Create?);
  }

  lemma NetworkKeepsRoles(m: Manifest, c: PlannedChange, run: Run)
    requires Plannable(c) && IsNetwork(c.entity.kind) && RolesReal(m, run.world.tenant, run.resolved)
    ensures var o := Perform(m, c, run); RolesReal(m, o.run.world.tenant, o.run.resolved)
    ensures var f := Perform(m, c, run).failure; !(f.Some? && f.value.RebindFailure?)
  {
    var run' := Perform(m, c, run).run;
    NetworkKeepsNamed(m, c, run);
    RolesStayReal(m, run.world.tenant, run'.world.tenant, run.resolved);
    forall e | e in m && e.kind.Role? && (Role, e.key) in run'.resolved
      ensures IsRole(run'.world.tenant, e.name, run'.resolved[(Role, e.key)])
    {
      assert IsRole(run'.world.tenant, e.name, run.resolved[(Role, e.key)]);
    }
  }

  lemma RolesStep(m: Manifest, cs: seq<PlannedChange>, c: PlannedChange, run: Run)
    requires Coherent(m) && RolesInv(m, cs, run) && c in cs && Plannable(c) && c.entity in m
    requires Perform(m, c, run).failure.None?
    ensures RolesInv(m, cs, Perform(m, c, run).run)
  {
    GrowStep(m, cs, c, run);
    if IsNetwork(c.entity.kind) { NetworkKeepsRoles(m, c, run); } else { NamedKeepsRoles(m, c, run); }
  }

  // A change that fails on a rebind reports truthfully what its subject now holds, compared with
  // what it held when the change began.
  lemma RebindStep(m: Manifest, c: PlannedChange, run: Run)
    requires Coherent(m) && c.entity in m && !IsNetwork(c.entity.kind)
    requires NamedWf(run.world.tenant) && Real(run.world.tenant, c) && RolesReal(m, run.world.tenant, run.resolved)
    requires var f := PerformNamed(m, c, run).failure; f.Some? && f.value.RebindFailure?
    ensures var o := PerformNamed(m, c, run);
            && IsSubject(c.entity.kind) && c.id.Some? && o.change == c
            && ReportIsTrue(run.world.tenant, o.run.world.tenant, Subject(c.entity.kind, c.id.value), o.failure.value)
  {
    var e, t := c.entity, run.world.tenant;
    var parent := ParentId(m, run.resolved, e).value;
    WriteKeepsRoles(m, c, run, parent);
    var (w1, written) := WriteRow(run.world, e, c, parent);
    var id := written.value;
    if c.action.Create? { NewSubjectUnbound(t, w1.tenant, Subject(e.kind, id)); }
    BindingsReport(m, run.resolved[(e.kind, e.key) := id], w1, e, id, c.action.Create?);
    ReportCarries(t, w1.tenant, PerformNamed(m, c, run).run.world.tenant, Subject(e.kind, id),
                  PerformNamed(m, c, run).failure.value);
  }

  // A row write before the rebind changes no binding; and what a report names was bound.
  lemma ReportCarries(t: TenantState, t1: TenantState, t': TenantState, s: Subject, f: Failure)
    requires t1.bindings == t.bindings && f.RebindFailure? && ReportIsTrue(t1, t', s, f)
    ensures ReportIsTrue(t, t', s, f) && Bound(t, s, f.role).Some? && Bound(t1, s, f.role).Some?
  {
    assert Bound(t1, s, f.role) == Bound(t, s, f.role);
  }

  // ---- the tenant just before the failing change ----

  ghost predicate RebindTrue(t0: TenantState, run: Run, report: Report)
  {
    report.failure.Some? && report.failure.value.RebindFailure? ==>
      && report.failed.Some? && IsSubject(report.failed.value.entity.kind) && report.failed.value.id.Some?
      && ReportIsTrue(t0, run.world.tenant,
                      Subject(report.failed.value.entity.kind, report.failed.value.id.value), report.failure.value)
  }

  // The changes before the failing one complete, and the report is true of the tenant they leave.
  ghost predicate TrueOfLast(m: Manifest, cs: seq<PlannedChange>, run: Run)
    requires forall c :: c in cs ==> Plannable(c)
  {
    var (run', report) := ApplySeq(m, cs, run);
    var n := |report.applied|;
    report.failure.Some? ==>
      && n < |cs|
      && ApplySeq(m, cs[..n], run).1.Complete()
      && RebindTrue(ApplySeq(m, cs[..n], run).0.world.tenant, run', report)
  }

  lemma TrueOfRest(m: Manifest, cs: seq<PlannedChange>, run: Run)
    requires cs != [] && forall c :: c in cs ==> Plannable(c)
    requires Perform(m, cs[0], run).failure.None? && TrueOfLast(m, cs[1..], Perform(m, cs[0], run).run)
    ensures TrueOfLast(m, cs, run)
  {
    var n := |ApplySeq(m, cs, run).1.applied|;
    if n <= |cs| {
      assert cs[..n][0] == cs[0] && cs[..n][1..] == cs[1..][..n - 1];
    }
  }

  lemma {:induction false} RunTrueOfLast(m: Manifest, cs: seq<PlannedChange>, run: Run)
    requires Coherent(m) && RolesInv(m, cs, run)
    requires forall c :: c in cs ==> Plannable(c) && c.entity in m
    ensures TrueOfLast(m, cs, run)
    decreases |cs|
  {
    if cs != [] {
      var o := Perform(m, cs[0], run);
      if o.failure.None? {
        RolesStep(m, cs, cs[0], run);
        RunTrueOfLast(m, cs[1..], o.run);
        TrueOfRest(m, cs, run);
      } else {
        assert cs[..0] == [];
        if IsNetwork(cs[0].entity.kind) {
          NetworkKeepsRoles(m, cs[0], run);
        } else if o.failure.value.RebindFailure? {
          RebindStep(m, cs[0], run);
        }
      }
    }
  }

  lemma SeededRoles(m: Manifest, w: World, cs: seq<PlannedChange>)
    requires Fresh(w) && Plan(m, w.tenant) == Ok(cs)
    ensures Coherent(m) && RolesInv(m, cs, Seeded(w, cs)) && RolesInv(m, Pending(cs), Seeded(w, cs))
    ensures forall c :: c in cs ==> Plannable(c) && c.entity in m
    ensures forall c :: c in Pending(cs) ==> c in cs
  {
    PlanPlannable(m, w.tenant);
    PendingElements(cs);
    ApplyKeepsTables(m, w, cs);
    SeedSound(m, w, cs);
    SoundIsReal(m, w.tenant, SeedResolved(cs));
    forall c | c in cs ensures c.entity in m {
      var i :| 0 <= i < |cs| && cs[i] == c;
      PlannedAt(m, w, cs, i);
    }
  }

  // After a failed assign the subject holds the binding it had when its change began exactly when
  // the report says the restore succeeded, and no binding of that role otherwise.
  lemma RebindReportIsTrueOfLast(m: Manifest, w: World, cs: seq<PlannedChange>)
    requires Fresh(w) && Plan(m, w.tenant) == Ok(cs)
    ensures var (run, report) := Apply(m, w).value;
            var n := |report.applied|;
            report.failure.Some? ==>
              && n < |Pending(cs)| && (forall c :: c in Pending(cs)[..n] ==> Plannable(c))
              && var (before, done) := ApplySeq(m, Pending(cs)[..n], Seeded(w, cs));
                 done.Complete() && RebindTrue(before.world.tenant, run, report)
  {
    SeededRoles(m, w, cs);
    RunTrueOfLast(m, Pending(cs), Seeded(w, cs));
  }

  // ---- the tenant the run began with ----

  // The bindings of a subject not yet reached are those the run began with.
  ghost predicate SubjectsKept(t0: TenantState, cs: seq<PlannedChange>, k: nat, t: TenantState)
  {
    forall i, role: Id :: k <= i < |cs| && IsSubject(cs[i].entity.kind) && cs[i].id.Some? ==>
      var s := Subject(cs[i].entity.kind, cs[i].id.value);
      Bound(t, s, role) == Bound(t0, s, role)
  }

  ghost predicate RebindInv(m: Manifest, t0: TenantState, cs: seq<PlannedChange>, k: nat, run: Run)
  {
    && PlanOf(m, cs) && k <= |cs| && DistinctSubjectNames(m)
    && RolesInv(m, cs, run) && SubjectsKept(t0, cs, k, run.world.tenant)
  }

  lemma BindingsElsewhere(m: Manifest, resolved: ResolvedIds, w: World, e: Entity, id: Id, create: bool, s: Subject, role: Id)
    ensures var t' := PerformBindings(m, resolved, w, e, id, create).0.tenant;
            && Table(t', e.kind) == Table(w.tenant, e.kind)
            && (s != Subject(e.kind, id) ==> Bound(t', s, role) == Bound(w.tenant, s, role))
  {
    PerformBindingsEffect(m, resolved, w, e, id, create);
    assert s != Subject(e.kind, id) ==> (s, role).0 != Subject(e.kind, id);
  }

  // A change touches the bindings of a row of its own name only.
  lemma OwnBindingsOnly(m: Manifest, c: PlannedChange, run: Run, s: Subject, role: Id)
    requires NamedWf(run.world.tenant) && !IsNetwork(c.entity.kind) && Real(run.world.tenant, c)
    requires var t' := PerformNamed(m, c, run).run.world.tenant;
             s.kind == c.entity.kind ==> !HasRow(t', s.kind, s.id, MatchName(c.entity))
    ensures Bound(PerformNamed(m, c, run).run.world.tenant, s, role) == Bound(run.world.tenant, s, role)
  {
    var e := c.entity;
    var parent := ParentId(m, run.resolved, e);
    if parent.Ok? {
      WriteRowGrows(run.world, c, parent.value);
      var (w1, written) := WriteRow(run.world, e, c, parent.value);
      if written.Ok? {
        var resolved := run.resolved[(e.kind, e.key) := written.value];
        BindingsElsewhere(m, resolved, w1, e, written.value, c.action.Create?, s, role);
        assert HasRow(w1.tenant, e.kind, written.value, MatchName(e));
      }
    }
  }

  // Rows of different names have different ids.
  lemma OtherRow(t: TenantState, kind: Kind, id: Id, a: string, b: string)
    requires NamedWf(t) && HasRow(t, kind, id, a) && a != b
    ensures !HasRow(t, kind, id, b)
  {
    assert RowsWf(Table(t, kind), t.nextId);
  }

  // So a subject planned under another name keeps what it holds.
  lemma OtherSubjectKept(m: Manifest, c: PlannedChange, run: Run, other: PlannedChange, role: Id)
    requires NamedWf(run.world.tenant) && !IsNetwork(c.entity.kind) && Real(run.world.tenant, c)
    requires Real(run.world.tenant, other) && IsSubject(other.entity.kind) && other.id.Some?
    requires !SameName(other.entity, c.entity)
    ensures var s := Subject(other.entity.kind, other.id.value);
            Bound(PerformNamed(m, c, run).run.world.tenant, s, role) == Bound(run.world.tenant, s, role)
  {
    var t' := PerformNamed(m, c, run).run.world.tenant;
    var kind, id := other.entity.kind, other.id.value;
    PerformNamedGrows(m, c, run);
    RowStays(run.world.tenant, t', kind, id, MatchName(other.entity));
    if kind == c.entity.kind { OtherRow(t', kind, id, MatchName(other.entity), MatchName(c.entity)); }
    OwnBindingsOnly(m, c, run, Subject(kind, id), role);
  }

  lemma SubjectsKeptNamed(m: Manifest, t0: TenantState, cs: seq<PlannedChange>, k: nat, run: Run)
    requires RebindInv(m, t0, cs, k, run) && k < |cs| && !IsNetwork(cs[k].entity.kind)
    ensures SubjectsKept(t0, cs, k + 1, PerformNamed(m, cs[k], run).run.world.tenant)
  {
    EntityAt(m, cs, k);
    assert Real(run.world.tenant, cs[k]);
    forall i, role: Id | k + 1 <= i < |cs| && IsSubject(cs[i].entity.kind) && cs[i].id.Some?
      ensures var s := Subject(cs[i].entity.kind, cs[i].id.value);
              Bound(PerformNamed(m, cs[k], run).run.world.tenant, s, role) == Bound(t0, s, role)
    {
      EntityAt(m, cs, i);
      OtherSubjectKept(m, cs[k], run, cs[i], role);
      var s := Subject(cs[i].entity.kind, cs[i].id.value);
      assert Bound(run.world.tenant, s, role) == Bound(t0, s, role);
    }
  }

  lemma RebindInvNext(m: Manifest, t0: TenantState, cs: seq<PlannedChange>, k: nat, run: Run)
    requires RebindInv(m, t0, cs, k, run) && k < |cs| && Perform(m, cs[k], run).failure.None?
    ensures RebindInv(m, t0, cs, k + 1, Perform(m, cs[k], run).run)
  {
    EntityAt(m, cs, k);
    RolesStep(m, cs, cs[k], run);
    if IsNetwork(cs[k].entity.kind) {
      NetworkKeepsNamed(m, cs[k], run);
      forall i, role: Id | k + 1 <= i < |cs| && IsSubject(cs[i].entity.kind) && cs[i].id.Some?
        ensures var s := Subject(cs[i].entity.kind, cs[i].id.value);
                Bound(Perform(m, cs[k], run).run.world.tenant, s, role) == Bound(t0, s, role)
      {
        assert Bound(run.world.tenant, Subject(cs[i].entity.kind, cs[i].id.value), role)
               == Bound(t0, Subject(cs[i].entity.kind, cs[i].id.value), role);
      }
    } else {
      SubjectsKeptNamed(m, t0, cs, k, run);
    }
  }

  // At the failing change the subject still holds what the run found.
  lemma RebindOfStart(m: Manifest, t0: TenantState, cs: seq<PlannedChange>, k: nat, run: Run)
    requires RebindInv(m, t0, cs, k, run) && k < |cs|
    requires var f := Perform(m, cs[k], run).failure; f.Some? && f.value.RebindFailure?
    ensures var o := Perform(m, cs[k], run);
            && o.change == cs[k] && IsSubject(cs[k].entity.kind) && cs[k].id.Some?
            && ReportIsTrue(t0, o.run.world.tenant, Subject(cs[k].entity.kind, cs[k].id.value), o.failure.value)
  {
    EntityAt(m, cs, k);
    if IsNetwork(cs[k].entity.kind) {
      NetworkKeepsRoles(m, cs[k], run);
    } else {
      RebindStep(m, cs[k], run);
      var s, role := Subject(cs[k].entity.kind, cs[k].id.value), PerformNamed(m, cs[k], run).failure.value.role;
      assert Bound(run.world.tenant, s, role) == Bound(t0, s, role);
    }
  }

  lemma {:induction false} RebindRuns(m: Manifest, t0: TenantState, cs: seq<PlannedChange>, k: nat, run: Run)
    requires RebindInv(m, t0, cs, k, run)
    requires forall c :: c in Pending(cs[k..]) ==> Plannable(c)
    ensures var (run', report) := ApplySeq(m, Pending(cs[k..]), run); RebindTrue(t0, run', report)
    decreases |cs| - k
  {
    if k < |cs| {
      PendingStep(cs, k);
      if cs[k].action.Unchanged? {
        RebindRuns(m, t0, cs, k + 1, run);
      } else {
        var o := Perform(m, cs[k], run);
        assert Pending(cs[k..])[1..] == Pending(cs[k + 1..]);
        if o.failure.None? {
          RebindInvNext(m, t0, cs, k, run);
          RebindRuns(m, t0, cs, k + 1, o.run);
        } else if o.failure.value.RebindFailure? {
          RebindOfStart(m, t0, cs, k, run);
        }
      }
    }
  }

  // With subjects told apart by name, the binding is the one the run found.
  lemma RebindReportIsTrue(m: Manifest, w: World, cs: seq<PlannedChange>)
    requires Fresh(w) && Plan(m, w.tenant) == Ok(cs) && DistinctSubjectNames(m)
    ensures var (run, report) := Apply(m, w).value; RebindTrue(w.tenant, run, report)
  {
    SeededRoles(m, w, cs);
    PlanIsPlanOf(m, w.tenant);
    assert cs[0..] == cs;
    RebindRuns(m, w.tenant, cs, 0, Seeded(w, cs));
  }

  // ---- tenant scopes ----

  lemma SubjectCarries(m: Manifest, resolved: ResolvedIds, w: World, e: Entity, id: Id, create: bool)
    requires Coherent(m) && e in m
    requires NamedWf(w.tenant) && RolesReal(m, w.tenant, resolved)
    requires create ==> forall role :: Bound(w.tenant, Subject(e.kind, id), role).None?
    ensures var (w', f) := PerformBindings(m, resolved, w, e, id, create);
            NoneWidened(w.tenant, w'.tenant) && (f.None? ==> Carried(w.tenant, w'.tenant))
  {
    if IsSubject(e.kind) { BindingsReport(m, resolved, w, e, id, create); }
  }

  lemma NamedCarries(m: Manifest, c: PlannedChange, run: Run)
    requires Coherent(m) && c.entity in m && !IsNetwork(c.entity.kind)
    requires NamedWf(run.world.tenant) && Real(run.world.tenant, c) && RolesReal(m, run.world.tenant, run.resolved)
    ensures var o := PerformNamed(m, c, run);
            && NoneWidened(run.world.tenant, o.run.world.tenant)
            && (o.failure.None? ==> Carried(run.world.tenant, o.run.world.tenant))
  {
    var e := c.entity;
    var parent := ParentId(m, run.resolved, e);
    if parent.Ok? {
      WriteKeepsRoles(m, c, run, parent.value);
      var (w1, written) := WriteRow(run.world, e, c, parent.value);
      if written.Ok? {
        if c.action.Create? { NewSubjectUnbound(run.world.tenant, w1.tenant, Subject(e.kind, written.value)); }
        SubjectCarries(m, run.resolved[(e.kind, e.key) := written.value], w1, e, written.value, c.action.Create?);
      }
    }
  }

  lemma ChangeCarries(m: Manifest, cs: seq<PlannedChange>, c: PlannedChange, run: Run)
    requires Coherent(m) && RolesInv(m, cs, run) && c in cs && Plannable(c) && c.entity in m
    ensures var o := Perform(m, c, run);
            && NoneWidened(run.world.tenant, o.run.world.tenant)
            && (o.failure.None? ==> Carried(run.world.tenant, o.run.world.tenant))
  {
    if IsNetwork(c.entity.kind) { NetworkKeepsNamed(m, c, run); } else { NamedCarries(m, c, run); }
  }

  lemma CarriedOn(t0: TenantState, t1: TenantState, t2: TenantState)
    requires Carried(t0, t1) && NoneWidened(t1, t2)
    ensures NoneWidened(t0, t2)
    ensures Carried(t1, t2) ==> Carried(t0, t2)
  {
  }

  lemma {:induction false} RunCarries(m: Manifest, cs: seq<PlannedChange>, t0: TenantState, run: Run)
    requires Coherent(m) && RolesInv(m, cs, run) && Carried(t0, run.world.tenant)
    requires forall c :: c in cs ==> Plannable(c) && c.entity in m
    ensures var (run', report) := ApplySeq(m, cs, run);
            NoneWidened(t0, run'.world.tenant) && (report.Complete() ==> Carried(t0, run'.world.tenant))
    decreases |cs|
  {
    if cs != [] {
      var o := Perform(m, cs[0], run);
      ChangeCarries(m, cs, cs[0], run);
      CarriedOn(t0, run.world.tenant, o.run.world.tenant);
      if o.failure.None? {
        RolesStep(m, cs, cs[0], run);
        RunCarries(m, cs[1..], t0, o.run);
      }
    }
  }

  // Whatever fails, a binding that existed before an apply is afterwards gone or has the tenant
  // scope it had; after a complete apply it is not gone.
  lemma TenantScopesCarried(m: Manifest, w: World, cs: seq<PlannedChange>)
    requires Fresh(w) && Plan(m, w.tenant) == Ok(cs)
    ensures var (run, report) := Apply(m, w).value;
            NoneWidened(w.tenant, run.world.tenant) && (report.Complete() ==> Carried(w.tenant, run.world.tenant))
  {
    SeededRoles(m, w, cs);
    RunCarries(m, Pending(cs), w.tenant, Seeded(w, cs));
  }
}
