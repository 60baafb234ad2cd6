// What every apply keeps of the named tables, whatever its names are and whatever fails: rows are
// added and rewritten, never renamed, renumbered or removed.
module ManifestGrow {
  import opened Prelude
  import opened Json
  import opened ManifestTypes
  import opened ManifestOrder
  import opened Tenant
  import opened ManifestPlan
  import opened ManifestApply
  import opened ManifestNetwork
  import opened ManifestNamed
  import opened ManifestBindings
  import opened ManifestPerform
  import opened ManifestRun
  import opened ManifestConvergence

  ghost predicate RowsGrow(rows: seq<Row>, rows': seq<Row>)
  {
    && |rows| <= |rows'|
    && forall i :: 0 <= i < |rows| ==> rows'[i].id == rows[i].id && rows'[i].name == rows[i].name
  }

  ghost predicate TablesGrow(t: TenantState, t': TenantState)
  {
    forall k :: RowsGrow(Table(t, k), Table(t', k))
  }

  ghost predicate HasRow(t: TenantState, kind: Kind, id: Id, name: string)
  {
    exists i :: 0 <= i < |Table(t, kind)| && Table(t, kind)[i].id == id && Table(t, kind)[i].name == name
  }

  // A change of an existing row is planned for a row of that name; a Create for none.
  ghost predicate Real(t: TenantState, c: PlannedChange)
  {
    !IsNetwork(c.entity.kind) ==>
      && (c.action.Create? <==> c.id.None?)
      && (c.id.Some? ==> HasRow(t, c.entity.kind, c.id.value, MatchName(c.entity)))
  }

  lemma RowStays(t: TenantState, t': TenantState, kind: Kind, id: Id, name: string)
    requires TablesGrow(t, t') && HasRow(t, kind, id, name)
    ensures HasRow(t', kind, id, name)
  {
    var i :| 0 <= i < |Table(t, kind)| && Table(t, kind)[i].id == id && Table(t, kind)[i].name == name;
    assert RowsGrow(Table(t, kind), Table(t', kind));
  }

  lemma RealStays(t: TenantState, t': TenantState, c: PlannedChange)
    requires TablesGrow(t, t') && Real(t, c)
    ensures Real(t', c)
  {
    if !IsNetwork(c.entity.kind) && c.id.Some? {
      RowStays(t, t', c.entity.kind, c.id.value, MatchName(c.entity));
    }
  }

  lemma GrowsOn(t: TenantState, t1: TenantState, t2: TenantState)
    requires TablesGrow(t, t1) && TablesGrow(t1, t2)
    ensures TablesGrow(t, t2)
  {
    forall k ensures RowsGrow(Table(t, k), Table(t2, k)) {
      assert RowsGrow(Table(t, k), Table(t1, k)) && RowsGrow(Table(t1, k), Table(t2, k));
    }
  }

  // ---- one row write ----

  // One table may grow by one row, and only by a Create.
  ghost predicate GrowsBy(t: TenantState, t': TenantState, c: PlannedChange)
  {
    && TablesGrow(t, t') && NamedWf(t') && t.nextId <= t'.nextId
    && forall k :: |Table(t', k)| <= |Table(t, k)| + if k == c.entity.kind && c.action.Create? then 1 else 0
  }

  lemma AddedRow(t: TenantState, t': TenantState, kind: Kind, row: Row)
    requires NamedWf(t) && !IsNetwork(kind) && row.id == t.nextId
    requires kind.Role? ==> LastNamed(t.roles, row.name) == |t.roles|
    requires t' == WithTable(t, kind, Table(t, kind) + [row]).(nextId := t.nextId + 1)
    ensures NamedWf(t') && t'.bindings == t.bindings && Table(t', kind) == Table(t, kind) + [row]
    ensures TablesGrow(t, t') && forall k :: |Table(t', k)| == |Table(t, k)| + if k == kind then 1 else 0
  {
    TableUpdate(t, kind, Table(t, kind) + [row], t.nextId + 1);
    AddedRowWf(t, t', kind, row);
    assert RowsGrow(Table(t, kind), Table(t', kind));
  }

  lemma AddedRowWf(t: TenantState, t': TenantState, kind: Kind, row: Row)
    requires NamedWf(t) && !IsNetwork(kind) && row.id == t.nextId && t'.nextId == t.nextId + 1
    requires kind.Role? ==> LastNamed(t.roles, row.name) == |t.roles|
    requires Table(t', kind) == Table(t, kind) + [row] && t'.bindings == t.bindings
    requires forall k :: k != kind ==> Table(t', k) == Table(t, k)
    ensures NamedWf(t')
  {
    assert RowsWf(Table(t, kind), t.nextId);
    AppendRowsWf(Table(t, kind), row);
    assert kind.Role? ==> Table(t, kind) == t.roles && Table(t', kind) == t'.roles;
    TableUpdateWf(t, t', kind);
  }

  lemma RewrittenWf(rows: seq<Row>, i: nat, row: Row, nextId: Id)
    requires i < |rows| && row.id == rows[i].id && RowsWf(rows, nextId)
    ensures RowsWf(rows[i := row], nextId)
  {
  }

  lemma RewrittenRow(t: TenantState, t': TenantState, kind: Kind, i: nat, row: Row)
    requires NamedWf(t) && !IsNetwork(kind) && i < |Table(t, kind)|
    requires row.id == Table(t, kind)[i].id && row.name == Table(t, kind)[i].name
    requires t' == WithTable(t, kind, Table(t, kind)[i := row])
    ensures NamedWf(t') && TablesGrow(t, t') && t'.bindings == t.bindings && t'.nextId == t.nextId
    ensures forall k :: |Table(t', k)| == |Table(t, k)|
  {
    var rows := Table(t, kind);
    TableUpdate(t, kind, rows[i := row], t.nextId);
    RewrittenWf(rows, i, row, t.nextId);
    assert kind.Role? ==> rows == t.roles && t'.roles == rows[i := row];
    TableUpdateWf(t, t', kind);
    assert RowsGrow(rows, rows[i := row]);
  }

  lemma CreateGrows(t: TenantState, c: PlannedChange, parent: Option<Id>)
    requires NamedWf(t) && !IsNetwork(c.entity.kind) && c.action.Create?
    ensures var (t', r) := Handle(t, CreateBody(c.entity, parent));
            && GrowsBy(t, t', c) && t'.bindings == t.bindings
            && (r.Accepted? ==>
                  && r.id == t.nextId && HasRow(t', c.entity.kind, r.id, MatchName(c.entity))
                  && |Table(t', c.entity.kind)| == |Table(t, c.entity.kind)| + 1
                  && (NameIsUnique(c.entity.kind) ==>
                        LastNamed(Table(t, c.entity.kind), MatchName(c.entity)) == |Table(t, c.entity.kind)|))
  {
    var e, body := c.entity, CreateBody(c.entity, parent);
    CreateBodyStates(e, parent);
    HandleCreate(t, body);
    var (t', r) := Handle(t, body);
    if r.Accepted? {
      AddedRow(t, t', e.kind, NewRow(t, body));
      assert Table(t', e.kind)[|Table(t, e.kind)|] == NewRow(t, body);
    }
  }

  lemma UpdateGrows(t: TenantState, c: PlannedChange, parent: Option<Id>)
    requires NamedWf(t) && !IsNetwork(c.entity.kind) && !c.action.Create? && Real(t, c)
    requires UpdateBody(c.entity, c.id.value, parent).Some?
    ensures var (t', r) := Handle(t, UpdateBody(c.entity, c.id.value, parent).value);
            && GrowsBy(t, t', c) && t'.bindings == t.bindings && (r.Accepted? ==> r.id == c.id.value)
  {
    var e, body := c.entity, UpdateBody(c.entity, c.id.value, parent).value;
    var rows, i := Table(t, e.kind), IndexOfId(Table(t, e.kind), c.id.value);
    assert RowsWf(rows, t.nextId);
    UpdateBodyShape(e, c.id.value, parent);
    var (t', r) := Handle(t, body);
    if r.Accepted? {
      HandleUpdate(t, body);
      RewrittenRow(t, t', e.kind, i, RewrittenBy(rows[i], body));
    }
  }

  // What writing a change's own row does to the tables.
  ghost predicate RowGrows(t: TenantState, t': TenantState, c: PlannedChange, r: Result<Id, Failure>)
  {
    var kind := c.entity.kind;
    && GrowsBy(t, t', c) && t'.bindings == t.bindings
    && (r.Ok? ==> HasRow(t', kind, r.value, MatchName(c.entity)))
    && (r.Ok? && !c.action.Create? ==> Some(r.value) == c.id)
    && (r.Ok? && c.action.Create? ==>
          && r.value == t.nextId && |Table(t', kind)| == |Table(t, kind)| + 1
          && (NameIsUnique(kind) ==> LastNamed(Table(t, kind), MatchName(c.entity)) == |Table(t, kind)|))
  }

  lemma WriteRowGrows(w: World, c: PlannedChange, parent: Option<Id>)
    requires NamedWf(w.tenant) && !IsNetwork(c.entity.kind) && Real(w.tenant, c)
    ensures var (w', r) := WriteRow(w, c.entity, c, parent); RowGrows(w.tenant, w'.tenant, c, r)
  {
    var t, e := w.tenant, c.entity;
    var (w', r) := WriteRow(w, e, c, parent);
    if c.action.Create? {
      CreateGrows(t, c, parent);
    } else {
      var body := UpdateBody(e, c.id.value, parent);
      if body.Some? { UpdateGrows(t, c, parent); }
      assert r.Ok? ==> r.value == c.id.value;
      RowStays(t, w'.tenant, e.kind, c.id.value, MatchName(e));
    }
  }

  // ---- one change ----

  lemma PerformNamedGrows(m: Manifest, c: PlannedChange, run: Run)
    requires NamedWf(run.world.tenant) && !IsNetwork(c.entity.kind) && Real(run.world.tenant, c)
    ensures var o := PerformNamed(m, c, run);
            var t, t', kind := run.world.tenant, o.run.world.tenant, c.entity.kind;
            && GrowsBy(t, t', c)
            && (o.failure.None? && c.action.Create? ==>
                  && |Table(t', kind)| == |Table(t, kind)| + 1
                  && HasRow(t', kind, t.nextId, MatchName(c.entity))
                  && (NameIsUnique(kind) ==> LastNamed(Table(t, kind), MatchName(c.entity)) == |Table(t, kind)|))
  {
    var e, t := c.entity, run.world.tenant;
    var parent := ParentId(m, run.resolved, e);
    if parent.Ok? {
      WriteRowGrows(run.world, c, parent.value);
      var (w1, written) := WriteRow(run.world, e, c, parent.value);
      if written.Ok? {
        var id := written.value;
        var resolved := run.resolved[(e.kind, e.key) := id];
        PerformBindingsEffect(m, resolved, w1, e, id, c.action.Create?);
        assert RowsWf(Table(w1.tenant, e.kind), w1.tenant.nextId);
        BindingsKeepWf(w1.tenant, PerformBindings(m, resolved, w1, e, id, c.action.Create?).0.tenant, Subject(e.kind, id));
      }
    }
  }

  lemma PerformGrows(m: Manifest, c: PlannedChange, run: Run)
    requires Plannable(c) && NamedWf(run.world.tenant) && Real(run.world.tenant, c)
    ensures GrowsBy(run.world.tenant, Perform(m, c, run).run.world.tenant, c)
  {
    if IsNetwork(c.entity.kind) {
      NetworkKeepsNamed(m, c, run);
      TablesSameWf(run.world.tenant, Perform(m, c, run).run.world.tenant);
    } else {
      PerformNamedGrows(m, c, run);
    }
  }

  // ---- whole runs ----

  ghost predicate GrowInv(cs: seq<PlannedChange>, t: TenantState)
  {
    NamedWf(t) && forall c :: c in cs ==> Real(t, c)
  }

  lemma GrowStep(m: Manifest, cs: seq<PlannedChange>, c: PlannedChange, run: Run)
    requires Plannable(c) && GrowInv(cs, run.world.tenant) && c in cs
    ensures GrowInv(cs, Perform(m, c, run).run.world.tenant)
    ensures GrowsBy(run.world.tenant, Perform(m, c, run).run.world.tenant, c)
  {
    PerformGrows(m, c, run);
    forall x | x in cs ensures Real(Perform(m, c, run).run.world.tenant, x) {
      RealStays(run.world.tenant, Perform(m, c, run).run.world.tenant, x);
    }
  }

  // Whatever fails and wherever it stops, a run leaves the tables as the server keeps them.
  lemma {:induction false} RunGrows(m: Manifest, cs: seq<PlannedChange>, run: Run)
    requires GrowInv(cs, run.world.tenant)
    requires forall c :: c in cs ==> Plannable(c)
    ensures var t' := ApplySeq(m, cs, run).0.world.tenant; NamedWf(t') && TablesGrow(run.world.tenant, t')
    decreases |cs|
  {
    if cs != [] {
      var o := Perform(m, cs[0], run);
      GrowStep(m, cs, cs[0], run);
      if o.failure.None? {
        RunGrows(m, cs[1..], o.run);
        GrowsOn(run.world.tenant, o.run.world.tenant, ApplySeq(m, cs[1..], o.run).0.world.tenant);
      }
    }
  }

  // ---- one name created twice ----

  ghost predicate Named(t: TenantState, kind: Kind, name: string)
  {
    exists id: Id :: HasRow(t, kind, id, name)
  }

  ghost predicate TwiceNamed(t: TenantState, kind: Kind, name: string)
  {
    exists i, j :: 0 <= i < j < |Table(t, kind)| && Table(t, kind)[i].name == name && Table(t, kind)[j].name == name
  }

  // The loop as far as two Creates of one name go, before change k.
  ghost predicate PairInv(cs: seq<PlannedChange>, k: nat, t: TenantState, i: nat, j: nat)
    requires i < j < |cs|
  {
    var kind, name := cs[i].entity.kind, MatchName(cs[i].entity);
    && k <= |cs| && GrowInv(cs, t)
    && (k > i ==> Named(t, kind, name))
    && (k > j ==> !NameIsUnique(kind) && TwiceNamed(t, kind, name))
  }

  lemma NamedStays(t: TenantState, t': TenantState, kind: Kind, name: string)
    requires TablesGrow(t, t')
    ensures Named(t, kind, name) ==> Named(t', kind, name)
    ensures TwiceNamed(t, kind, name) ==> TwiceNamed(t', kind, name)
  {
    assert RowsGrow(Table(t, kind), Table(t', kind));
    if Named(t, kind, name) {
      var id: Id :| HasRow(t, kind, id, name);
      RowStays(t, t', kind, id, name);
    }
  }

  // The row a Create adds is another one than any row of the name before it.
  lemma SecondOfName(t: TenantState, t': TenantState, kind: Kind, name: string)
    requires NamedWf(t) && TablesGrow(t, t') && Named(t, kind, name) && HasRow(t', kind, t.nextId, name)
    ensures TwiceNamed(t', kind, name)
    ensures LastNamed(Table(t, kind), name) < |Table(t, kind)|
  {
    var rows, rows' := Table(t, kind), Table(t', kind);
    assert RowsGrow(rows, rows') && RowsWf(rows, t.nextId);
    var id: Id :| HasRow(t, kind, id, name);
    var a :| 0 <= a < |rows| && rows[a].name == name;
    var b :| 0 <= b < |rows'| && rows'[b].id == t.nextId && rows'[b].name == name;
    assert b >= |rows|;
  }

  lemma PairStep(m: Manifest, cs: seq<PlannedChange>, k: nat, run: Run, i: nat, j: nat)
    requires i < j < |cs| && PairInv(cs, k, run.world.tenant, i, j) && k < |cs| && Plannable(cs[k])
    requires cs[i].action.Create? && cs[j].action.Create? && SameName(cs[i].entity, cs[j].entity)
    requires Perform(m, cs[k], run).failure.None?
    ensures PairInv(cs, k + 1, Perform(m, cs[k], run).run.world.tenant, i, j)
  {
    var t, t' := run.world.tenant, Perform(m, cs[k], run).run.world.tenant;
    var kind, name := cs[i].entity.kind, MatchName(cs[i].entity);
    GrowStep(m, cs, cs[k], run);
    NamedStays(t, t', kind, name);
    if k == i || k == j {
      PerformNamedGrows(m, cs[k], run);
      assert HasRow(t', kind, t.nextId, name);
      if k == j { SecondOfName(t, t', kind, name); }
    }
  }

  // Permissions, roles and groups: the server refuses the second, so such a run is never
  // complete. Resources and accounts: the run leaves two rows of the name.
  lemma CreatedTwice(m: Manifest, cs: seq<PlannedChange>, run: Run, i: nat, j: nat)
    requires GrowInv(cs, run.world.tenant) && i < j < |cs|
    requires cs[i].action.Create? && cs[j].action.Create? && SameName(cs[i].entity, cs[j].entity)
    requires forall c :: c in Pending(cs) ==> Plannable(c)
    requires ApplySeq(m, Pending(cs), run).1.Complete()
    ensures !NameIsUnique(cs[i].entity.kind)
    ensures TwiceNamed(ApplySeq(m, Pending(cs), run).0.world.tenant, cs[i].entity.kind, MatchName(cs[i].entity))
  {
    assert cs[0..] == cs;
    forall k: nat, r: Run | k < |cs| && PairInv(cs, k, r.world.tenant, i, j) && !cs[k].action.Unchanged? && Plannable(cs[k])
      ensures Perform(m, cs[k], r).failure.None? ==> PairInv(cs, k + 1, Perform(m, cs[k], r).run.world.tenant, i, j)
    {
      if Perform(m, cs[k], r).failure.None? { PairStep(m, cs, k, r, i, j); }
    }
    CompleteRunKeeps(m, cs, 0, run, (k: nat, r: Run) => PairInv(cs, k, r.world.tenant, i, j));
  }

  // No table outgrows what the plan creates.
  ghost predicate SizeInv(cs: seq<PlannedChange>, k: nat, t: TenantState, kind: Kind, bound: nat)
  {
    && k <= |cs| && GrowInv(cs, t)
    && |Table(t, kind)| + Creates(cs[k..], kind) <= bound
  }

  lemma SizeStep(m: Manifest, cs: seq<PlannedChange>, k: nat, run: Run, kind: Kind, bound: nat)
    requires k < |cs| && SizeInv(cs, k, run.world.tenant, kind, bound)
    ensures cs[k].action.Unchanged? ==> SizeInv(cs, k + 1, run.world.tenant, kind, bound)
    ensures Plannable(cs[k]) ==> SizeInv(cs, k + 1, Perform(m, cs[k], run).run.world.tenant, kind, bound)
  {
    CreatesStep(cs, k, kind);
    if Plannable(cs[k]) { GrowStep(m, cs, cs[k], run); }
  }

  lemma CompleteSize(m: Manifest, cs: seq<PlannedChange>, run: Run, kind: Kind)
    requires GrowInv(cs, run.world.tenant)
    requires forall c :: c in Pending(cs) ==> Plannable(c)
    requires ApplySeq(m, Pending(cs), run).1.Complete()
    ensures |Table(ApplySeq(m, Pending(cs), run).0.world.tenant, kind)|
            <= |Table(run.world.tenant, kind)| + Creates(cs, kind)
  {
    assert cs[0..] == cs;
    var bound := |Table(run.world.tenant, kind)| + Creates(cs, kind);
    forall k: nat, r: Run | k < |cs| && SizeInv(cs, k, r.world.tenant, kind, bound)
      ensures cs[k].action.Unchanged? ==> SizeInv(cs, k + 1, r.world.tenant, kind, bound)
      ensures Plannable(cs[k]) ==> SizeInv(cs, k + 1, Perform(m, cs[k], r).run.world.tenant, kind, bound)
    {
      SizeStep(m, cs, k, r, kind, bound);
    }
    CompleteRunKeeps(m, cs, 0, run, (k: nat, r: Run) => SizeInv(cs, k, r.world.tenant, kind, bound));
  }
}
