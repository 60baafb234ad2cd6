// Two resources created under one name: the next plan matches both to the row created last.
module ManifestShared {
  import opened Prelude
  import opened Json
  import opened ManifestTypes
  import opened ManifestOrder
  import opened Tenant
  import opened ManifestPlan
  import opened ManifestApply
  import opened ManifestNetwork
  import opened ManifestNamed
  import opened ManifestBindings
  import opened ManifestSettle
  import opened ManifestPerform
  import opened ManifestRun
  import opened ManifestLanded
  import opened ManifestConvergence
  import opened ManifestGrow
  import opened ManifestTheorems

  // The metadata a created resource is stored with: an empty object when none is declared.
  function StoredMetadata(e: Entity): Json
  {
    DeclaredMetadata(e).GetOr(JObject(map[]))
  }

  // What performing c may do to its own table.
  ghost predicate RowsChange(rows: seq<Row>, rows': seq<Row>, c: PlannedChange, nextId: Id)
  {
    || rows' == rows
    || (c.action.Create? && |rows'| == |rows| + 1 && rows' == rows + [rows'[|rows|]]
        && rows'[|rows|].id == nextId && rows'[|rows|].name == MatchName(c.entity)
        && (c.entity.kind.Resource? ==> rows'[|rows|].metadata == StoredMetadata(c.entity)))
    || (!c.action.Create? && |rows'| == |rows|
        && forall i :: 0 <= i < |rows| && Some(rows[i].id) != c.id ==> rows'[i] == rows[i])
  }

  lemma CreateChanges(w: World, c: PlannedChange, parent: Option<Id>)
    requires !IsNetwork(c.entity.kind) && c.action.Create?
    ensures var w' := WriteRow(w, c.entity, c, parent).0;
            && RowsChange(Table(w.tenant, c.entity.kind), Table(w'.tenant, c.entity.kind), c, w.tenant.nextId)
            && forall k :: k != c.entity.kind ==> Table(w'.tenant, k) == Table(w.tenant, k)
  {
    var t, kind, body := w.tenant, c.entity.kind, CreateBody(c.entity, parent);
    CreateBodyStates(c.entity, parent);
    HandleCreate(t, body);
    TableUpdate(t, kind, Table(t, kind) + [NewRow(t, body)], t.nextId + 1);
  }

  lemma UpdateHandled(t: TenantState, c: PlannedChange, body: Request)
    requires !IsNetwork(c.entity.kind) && !c.action.Create? && c.id.Some?
    requires body.UpdateRow? && body.kind == c.entity.kind && body.id == c.id.value
    ensures var t' := Handle(t, body).0;
            && RowsChange(Table(t, c.entity.kind), Table(t', c.entity.kind), c, t.nextId)
            && forall k :: k != c.entity.kind ==> Table(t', k) == Table(t, k)
  {
    HandleUpdate(t, body);
    var rows, i := Table(t, body.kind), IndexOfId(Table(t, body.kind), body.id);
    if i < |rows| {
      TableUpdate(t, body.kind, rows[i := RewrittenBy(rows[i], body)], t.nextId);
    }
  }

  lemma UpdateChanges(w: World, c: PlannedChange, parent: Option<Id>)
    requires !IsNetwork(c.entity.kind) && !c.action.Create? && c.id.Some?
    ensures var w' := WriteRow(w, c.entity, c, parent).0;
            && RowsChange(Table(w.tenant, c.entity.kind), Table(w'.tenant, c.entity.kind), c, w.tenant.nextId)
            && forall k :: k != c.entity.kind ==> Table(w'.tenant, k) == Table(w.tenant, k)
  {
    var body := UpdateBody(c.entity, c.id.value, parent);
    if body.Some? {
      UpdateBodyShape(c.entity, c.id.value, parent);
      UpdateHandled(w.tenant, c, body.value);
    }
  }

  lemma WriteChanges(w: World, c: PlannedChange, parent: Option<Id>)
    requires !IsNetwork(c.entity.kind) && (c.action.Create? <==> c.id.None?)
    ensures var w' := WriteRow(w, c.entity, c, parent).0;
            && RowsChange(Table(w.tenant, c.entity.kind), Table(w'.tenant, c.entity.kind), c, w.tenant.nextId)
            && forall k :: k != c.entity.kind ==> Table(w'.tenant, k) == Table(w.tenant, k)
  {
    if c.action.Create? { CreateChanges(w, c, parent); } else { UpdateChanges(w, c, parent); }
  }

  lemma PerformChanges(m: Manifest, c: PlannedChange, run: Run)
    requires !IsNetwork(c.entity.kind) && (c.action.Create? <==> c.id.None?)
    ensures var t, t' := run.world.tenant, PerformNamed(m, c, run).run.world.tenant;
            && RowsChange(Table(t, c.entity.kind), Table(t', c.entity.kind), c, t.nextId)
            && forall k :: k != c.entity.kind ==> Table(t', k) == Table(t, k)
  {
    var e := c.entity;
    var parent := ParentId(m, run.resolved, e);
    if parent.Ok? {
      WriteChanges(run.world, c, parent.value);
      var (w1, written) := WriteRow(run.world, e, c, parent.value);
      if written.Ok? {
        var resolved := run.resolved[(e.kind, e.key) := written.value];
        PerformBindingsEffect(m, resolved, w1, e, written.value, c.action.Create?);
        OnlySubjectKeeps(m, w1.tenant, PerformBindings(m, resolved, w1, e, written.value, c.action.Create?).0.tenant,
                         Subject(e.kind, written.value), resolved);
      }
    }
  }

  // The row the last Create of a resource name added: the last of its name, and as it was written.
  ghost predicate LastRow(t: TenantState, e: Entity, from: Id)
  {
    var rows := Table(t, Resource);
    var i := LastNamed(rows, e.name);
    i < |rows| && rows[i].id >= from && rows[i].metadata == StoredMetadata(e)
  }

  // The loop as far as that row goes.
  ghost predicate LastInv(cs: seq<PlannedChange>, k: nat, t: TenantState, j: nat, from: Id)
    requires j < |cs|
  {
    && k <= |cs| && GrowInv(cs, t) && from <= t.nextId
    && (forall c :: c in cs && c.id.Some? && c.entity.kind.Resource? ==> c.id.value < from)
    && (k > j ==> LastRow(t, cs[j].entity, from))
  }

  lemma LastRowStays(t: TenantState, t': TenantState, e: Entity, c: PlannedChange, from: Id)
    requires LastRow(t, e, from) && c.entity.kind.Resource? && (c.id.Some? ==> c.id.value < from)
    requires c.action.Create? ==> c.entity.name != e.name
    requires TablesGrow(t, t') && RowsChange(Table(t, Resource), Table(t', Resource), c, t.nextId)
    ensures LastRow(t', e, from)
  {
    var rows, rows', i := Table(t, Resource), Table(t', Resource), LastNamed(Table(t, Resource), e.name);
    assert RowsGrow(rows, rows');
    LastNamedAt(rows', e.name, i);
  }

  lemma LastRowAdded(t: TenantState, t': TenantState, c: PlannedChange, from: Id)
    requires c.entity.kind.Resource? && from <= t.nextId
    requires RowsChange(Table(t, Resource), Table(t', Resource), c, t.nextId)
    requires |Table(t', Resource)| == |Table(t, Resource)| + 1
    ensures LastRow(t', c.entity, from)
  {
    LastNamedAt(Table(t', Resource), c.entity.name, |Table(t, Resource)|);
  }

  lemma LastStep(m: Manifest, cs: seq<PlannedChange>, k: nat, run: Run, j: nat, from: Id)
    requires j < |cs| && LastInv(cs, k, run.world.tenant, j, from) && k < |cs| && Plannable(cs[k])
    requires cs[j].entity.kind.Resource? && cs[j].action.Create?
    requires forall i :: j < i < |cs| && cs[i].action.Create? ==> !SameName(cs[i].entity, cs[j].entity)
    requires Perform(m, cs[k], run).failure.None?
    ensures LastInv(cs, k + 1, Perform(m, cs[k], run).run.world.tenant, j, from)
  {
    var c, t, t' := cs[k], run.world.tenant, Perform(m, cs[k], run).run.world.tenant;
    GrowStep(m, cs, c, run);
    if k >= j {
      if c.entity.kind.Resource? {
        PerformChanges(m, c, run);
        PerformNamedGrows(m, c, run);
        if k == j { LastRowAdded(t, t', c, from); } else { LastRowStays(t, t', cs[j].entity, c, from); }
      } else if IsNetwork(c.entity.kind) {
        NetworkKeepsNamed(m, c, run);
        assert Table(t', Resource) == Table(t, Resource);
      } else {
        PerformChanges(m, c, run);
        assert Table(t', Resource) == Table(t, Resource);
      }
    }
  }

  lemma PlannedIds(m: Manifest, w: World, cs: seq<PlannedChange>)
    requires Fresh(w) && Plan(m, w.tenant) == Ok(cs)
    ensures forall c :: c in cs && c.id.Some? && c.entity.kind.Resource? ==> c.id.value < w.tenant.nextId
  {
    forall c | c in cs && c.id.Some? && c.entity.kind.Resource? ensures c.id.value < w.tenant.nextId {
      var i :| 0 <= i < |cs| && cs[i] == c;
      PlannedAt(m, w, cs, i);
      assert RowsWf(Table(w.tenant, Resource), w.tenant.nextId);
    }
  }

  lemma LastNext(m: Manifest, cs: seq<PlannedChange>, k: nat, run: Run, j: nat, from: Id)
    requires j < |cs| && LastInv(cs, k, run.world.tenant, j, from) && k < |cs|
    requires cs[j].entity.kind.Resource? && cs[j].action.Create?
    requires forall i :: j < i < |cs| && cs[i].action.Create? ==> !SameName(cs[i].entity, cs[j].entity)
    ensures cs[k].action.Unchanged? ==> LastInv(cs, k + 1, run.world.tenant, j, from)
    ensures Plannable(cs[k]) && Perform(m, cs[k], run).failure.None? ==>
              LastInv(cs, k + 1, Perform(m, cs[k], run).run.world.tenant, j, from)
  {
    if Plannable(cs[k]) && Perform(m, cs[k], run).failure.None? { LastStep(m, cs, k, run, j, from); }
  }

  lemma LastBegins(m: Manifest, w: World, cs: seq<PlannedChange>, j: nat)
    requires Fresh(w) && Plan(m, w.tenant) == Ok(cs) && j < |cs|
    ensures LastInv(cs, 0, w.tenant, j, w.tenant.nextId)
  {
    ApplyKeepsTables(m, w, cs);
    PlannedIds(m, w, cs);
  }

  lemma LastRowAtEnd(m: Manifest, w: World, cs: seq<PlannedChange>, j: nat)
    requires Fresh(w) && Plan(m, w.tenant) == Ok(cs) && Apply(m, w).value.1.Complete()
    requires j < |cs| && cs[j].entity.kind.Resource? && cs[j].action.Create?
    requires forall i :: j < i < |cs| && cs[i].action.Create? ==> !SameName(cs[i].entity, cs[j].entity)
    ensures LastRow(Apply(m, w).value.0.world.tenant, cs[j].entity, w.tenant.nextId)
  {
    PlanPlannable(m, w.tenant);
    PendingElements(cs);
    LastBegins(m, w, cs, j);
    assert cs[0..] == cs;
    var from := w.tenant.nextId;
    forall k: nat, r: Run | k < |cs| && LastInv(cs, k, r.world.tenant, j, from)
      ensures cs[k].action.Unchanged? ==> LastInv(cs, k + 1, r.world.tenant, j, from)
      ensures Plannable(cs[k]) && Perform(m, cs[k], r).failure.None? ==>
                LastInv(cs, k + 1, Perform(m, cs[k], r).run.world.tenant, j, from)
    {
      LastNext(m, cs, k, r, j, from);
    }
    CompleteRunKeeps(m, cs, 0, Seeded(w, cs), (k: nat, r: Run) => LastInv(cs, k, r.world.tenant, j, from));
  }

  lemma SettledByLastRow(m: Manifest, t: TenantState, e: Entity, last: Entity, from: Id)
    requires HasSpec(e) && e.kind.Resource? && e.name == last.name
    requires LastRow(t, last, from) && |Table(t, Resource)| <= SCAN_LIMIT
    ensures Settled(m, t, e) <==> (e.metadata.Some? ==> DeclaredMetadata(e) == Some(StoredMetadata(last)))
  {
    assert Visible(Table(t, Resource)) == Table(t, Resource);
  }

  // Resources created under one name, j the last of them: each is in order afterwards exactly when
  // the metadata it states is what the last one was stored with.
  lemma SharedResourceSettles(m: Manifest, w: World, cs: seq<PlannedChange>, i: nat, j: nat)
    requires Fresh(w) && Plan(m, w.tenant) == Ok(cs) && Apply(m, w).value.1.Complete() && PageRoom(w.tenant, cs)
    requires i <= j < |cs| && cs[j].entity.kind.Resource? && cs[j].action.Create?
    requires SameName(cs[i].entity, cs[j].entity)
    requires forall n :: j < n < |cs| && cs[n].action.Create? ==> !SameName(cs[n].entity, cs[j].entity)
    ensures HasSpec(cs[i].entity)
    ensures Settled(m, Apply(m, w).value.0.world.tenant, cs[i].entity) <==>
            (cs[i].entity.metadata.Some? ==> DeclaredMetadata(cs[i].entity) == Some(StoredMetadata(cs[j].entity)))
  {
    var t := Apply(m, w).value.0.world.tenant;
    PlanPlannable(m, w.tenant);
    PendingElements(cs);
    ApplyKeepsTables(m, w, cs);
    PlannedAt(m, w, cs, i);
    LastRowAtEnd(m, w, cs, j);
    CompleteSize(m, cs, Seeded(w, cs), Resource);
    CreatesAny(cs, j);
    assert Room(w.tenant, cs, Resource);
    SettledByLastRow(m, t, cs[i].entity, cs[j].entity, w.tenant.nextId);
  }

  // ---- convergence whatever names are shared ----

  // No binding is narrowed to a resource that another of its name is created after.
  ghost predicate TwinsNarrowless(m: Manifest, cs: seq<PlannedChange>)
  {
    forall i, j :: 0 <= i < j < |cs| && Twins(cs, i, j) && cs[i].entity.kind.Resource? ==> !Narrows(m, cs[i].entity.key)
  }

  // No later change creates a row of this one's name.
  ghost predicate LastTwin(cs: seq<PlannedChange>, j: nat)
    requires j < |cs|
  {
    forall n :: j < n < |cs| && cs[n].action.Create? ==> !SameName(cs[n].entity, cs[j].entity)
  }

  // The metadata a resource states is what the last one of its name is stored with.
  ghost predicate TwinsAgree(cs: seq<PlannedChange>)
  {
    forall i, j :: 0 <= i < j < |cs| && Twins(cs, i, j) && cs[j].entity.kind.Resource? && LastTwin(cs, j)
                   && cs[i].entity.metadata.Some? ==>
      DeclaredMetadata(cs[i].entity) == Some(StoredMetadata(cs[j].entity))
  }

  ghost predicate AccountsApart(cs: seq<PlannedChange>)
  {
    forall i, j :: 0 <= i < j < |cs| && Twins(cs, i, j) ==> !cs[i].entity.kind.ServiceAccount?
  }

  lemma {:induction false} LastTwinOf(cs: seq<PlannedChange>, i: nat) returns (j: nat)
    requires i < |cs| && cs[i].action.Create?
    ensures i <= j < |cs| && (j == i || Twins(cs, i, j)) && cs[j].action.Create? && LastTwin(cs, j)
    decreases |cs| - i
  {
    j := i;
    if n :| i < n < |cs| && cs[n].action.Create? && SameName(cs[n].entity, cs[i].entity) {
      j := LastTwinOf(cs, n);
    }
  }

  lemma TwinSettles(m: Manifest, w: World, cs: seq<PlannedChange>, i: nat)
    requires Fresh(w) && Plan(m, w.tenant) == Ok(cs) && Apply(m, w).value.1.Complete() && PageRoom(w.tenant, cs)
    requires i < |cs| && cs[i].entity.kind.Resource? && cs[i].action.Create? && TwinsAgree(cs) && MetadataOk(m)
    ensures HasSpec(cs[i].entity) && Settled(m, Apply(m, w).value.0.world.tenant, cs[i].entity)
  {
    var j := LastTwinOf(cs, i);
    SharedResourceSettles(m, w, cs, i, j);
    PlannedAt(m, w, cs, i);
    assert MetadataParses(cs[i].entity);
  }

  lemma CompleteTwins(m: Manifest, w: World, cs: seq<PlannedChange>)
    requires Fresh(w) && Plan(m, w.tenant) == Ok(cs) && Apply(m, w).value.1.Complete()
    ensures forall i, j :: 0 <= i < j < |cs| && Twins(cs, i, j) ==>
              cs[i].entity.kind.Resource? || cs[i].entity.kind.ServiceAccount?
  {
    PlanPlannable(m, w.tenant);
    PendingElements(cs);
    ApplyKeepsTables(m, w, cs);
    forall i, j | 0 <= i < j < |cs| && Twins(cs, i, j)
      ensures cs[i].entity.kind.Resource? || cs[i].entity.kind.ServiceAccount?
    {
      CreatedTwice(m, cs, Seeded(w, cs), i, j);
    }
  }

  lemma TwinsConverge(m: Manifest, w: World, cs: seq<PlannedChange>)
    requires Fresh(w) && Plan(m, w.tenant) == Ok(cs) && Apply(m, w).value.1.Complete() && PageRoom(w.tenant, cs)
    requires MetadataOk(m) && CapStable(m, w.tenant, cs) && NamesAgree(m)
    requires TwinsNarrowless(m, cs) && TwinsAgree(cs) && AccountsApart(cs)
    ensures Converged(m, Apply(m, w).value.0.world.tenant)
  {
    CompleteTwins(m, w, cs);
    var n := RunLands(m, w, cs);
    var t := Apply(m, w).value.0.world.tenant;
    forall i | 0 <= i < |cs| ensures HasSpec(cs[i].entity) && Settled(m, t, cs[i].entity) {
      assert Past(cs, n, i);
      if !IsNetwork(cs[i].entity.kind) && HasTwin(cs, i) {
        var j :| 0 <= j < |cs| && Twins(cs, i, j);
        assert Twins(cs, j, i);
        TwinSettles(m, w, cs, i);
      }
    }
    AllSettled(m, w, cs, t);
  }

  lemma ConvergedTwins(m: Manifest, w: World, cs: seq<PlannedChange>)
    requires Fresh(w) && Plan(m, w.tenant) == Ok(cs) && Apply(m, w).value.1.Complete() && PageRoom(w.tenant, cs)
    requires Converged(m, Apply(m, w).value.0.world.tenant)
    ensures TwinsAgree(cs) && AccountsApart(cs)
  {
    forall i, j | 0 <= i < j < |cs| && Twins(cs, i, j) ensures !cs[i].entity.kind.ServiceAccount? {
      if cs[i].entity.kind.ServiceAccount? {
        SharedAccountsNeverConverge(m, w, cs, i, j);
        assert false;
      }
    }
    forall i, j | 0 <= i < j < |cs| && Twins(cs, i, j) && cs[j].entity.kind.Resource? && LastTwin(cs, j)
                  && cs[i].entity.metadata.Some?
      ensures DeclaredMetadata(cs[i].entity) == Some(StoredMetadata(cs[j].entity))
    {
      SharedResourceSettles(m, w, cs, i, j);
      PlannedAt(m, w, cs, i);
      ConvergedSettled(m, Apply(m, w).value.0.world.tenant, cs[i].entity);
    }
  }

  // On one page, whatever names are shared: a complete apply makes the next plan all Unchanged
  // exactly when metadata parses, the cap keeps the unchanged profiles, declarations of one name
  // agree, every resource created under a shared name states what the last of them is stored with,
  // and no two service accounts are created under one name.
  lemma ConvergenceOnOnePage(m: Manifest, w: World, cs: seq<PlannedChange>)
    requires Fresh(w) && Plan(m, w.tenant) == Ok(cs) && Apply(m, w).value.1.Complete()
    requires PageRoom(w.tenant, cs) && TwinsNarrowless(m, cs)
    ensures Converged(m, Apply(m, w).value.0.world.tenant) <==>
            && MetadataOk(m) && CapStable(m, w.tenant, cs) && NamesAgree(m)
            && TwinsAgree(cs) && AccountsApart(cs)
  {
    if Converged(m, Apply(m, w).value.0.world.tenant) {
      PlannedCoherent(m, w, cs);
      MetadataNecessary(m, Apply(m, w).value.0.world.tenant);
      CapNecessary(m, w, cs);
      ApplyKeepsTables(m, w, cs);
      ConvergedNamesAgree(m, Apply(m, w).value.0.world.tenant);
      ConvergedTwins(m, w, cs);
    }
    if MetadataOk(m) && CapStable(m, w.tenant, cs) && NamesAgree(m) && TwinsAgree(cs) && AccountsApart(cs) {
      TwinsConverge(m, w, cs);
    }
  }

  lemma PlannedCoherent(m: Manifest, w: World, cs: seq<PlannedChange>)
    requires Plan(m, w.tenant) == Ok(cs)
    ensures Coherent(m)
  {
  }
}
