// What performing one named change does, whatever fails.
module ManifestPerform {
  import opened Prelude
  import opened Json
  import opened ManifestTypes
  import opened Tenant
  import opened ManifestPlan
  import opened ManifestApply
  import opened ManifestNetwork
  import opened ManifestNamed
  import opened ManifestBindings

  // The row e is matched to, by position.
  ghost predicate RowAt(t: TenantState, e: Entity, id: Id, i: nat)
  {
    i < |Table(t, e.kind)| && Table(t, e.kind)[i].id == id && Table(t, e.kind)[i].name == MatchName(e)
  }

  predicate MetadataParses(e: Entity)
  {
    e.kind.Resource? && e.metadata.Some? ==> e.metadata.value.parsed.Some?
  }

  // Where the row of a change is once it has been written.
  function WrittenAt(t: TenantState, c: PlannedChange): nat
  {
    if c.action.Create? then |Table(t, c.entity.kind)|
    else Locate(t, c.entity.kind, MatchName(c.entity)).GetOr(0)
  }

  ghost predicate RowWritten(t: TenantState, t': TenantState, c: PlannedChange, id: Id)
  {
    var e, i := c.entity, WrittenAt(t, c);
    && RowAt(t', e, id, i)
    && (c.action.Create? ==> id == t.nextId && |Table(t', e.kind)| == |Table(t, e.kind)| + 1)
    && (!c.action.Create? ==> |Table(t', e.kind)| == |Table(t, e.kind)|)
    && (MetadataParses(e) ==> FieldsMatch(e, Table(t', e.kind)[i]))
  }

  lemma IndexOfIdAt(rows: seq<Row>, id: Id, i: nat)
    requires i < |rows| && rows[i].id == id
    requires forall j :: 0 <= j < i ==> rows[j].id != id
    ensures IndexOfId(rows, id) == i
  {
  }

  // ---- tables ----

  lemma TableUpdate(t: TenantState, kind: Kind, rows: seq<Row>, nextId: Id)
    requires !IsNetwork(kind)
    ensures var t' := WithTable(t, kind, rows).(nextId := nextId);
            && Table(t', kind) == rows && (forall k :: k != kind ==> Table(t', k) == Table(t, k))
            && t'.bindings == t.bindings && t'.nextId == nextId
            && t'.policy == t.policy && t'.segments == t.segments && t'.profiles == t.profiles
  {
  }

  lemma TableUpdateWf(t: TenantState, t': TenantState, kind: Kind)
    requires NamedWf(t) && !IsNetwork(kind) && t.nextId <= t'.nextId && t'.bindings == t.bindings
    requires forall k :: k != kind ==> Table(t', k) == Table(t, k)
    requires RowsWf(Table(t', kind), t'.nextId)
    requires kind.Role? ==> forall i, j :: 0 <= i < j < |t'.roles| ==> t'.roles[i].name != t'.roles[j].name
    ensures NamedWf(t')
  {
    forall k ensures RowsWf(Table(t', k), t'.nextId) {
      assert RowsWf(Table(t, k), t.nextId);
    }
    assert Table(t', Role) == t'.roles && Table(t, Role) == t.roles;
  }

  lemma AppendRowsWf(rows: seq<Row>, row: Row)
    requires RowsWf(rows, row.id)
    ensures RowsWf(rows + [row], row.id + 1)
  {
  }

  lemma AppendRow(t: TenantState, e: Entity, row: Row)
    requires NamedWf(t) && !IsNetwork(e.kind) && row.id == t.nextId && row.name == MatchName(e)
    requires e.kind.Resource? || Locate(t, e.kind, MatchName(e)).None?
    requires e.kind.Role? ==> LastNamed(t.roles, row.name) == |t.roles|
    ensures var t' := WithTable(t, e.kind, Table(t, e.kind) + [row]).(nextId := t.nextId + 1);
            NamedStep(t, t', e) && NamedWf(t') && t'.bindings == t.bindings
            && Table(t', e.kind) == Table(t, e.kind) + [row]
  {
    var rows := Table(t, e.kind);
    var t' := WithTable(t, e.kind, rows + [row]).(nextId := t.nextId + 1);
    TableUpdate(t, e.kind, rows + [row], t.nextId + 1);
    assert RowsWf(rows, t.nextId);
    AppendRowsWf(rows, row);
    TableUpdateWf(t, t', e.kind);
  }

  lemma ReplaceRow(t: TenantState, e: Entity, row: Row)
    requires NamedWf(t) && !IsNetwork(e.kind) && Locate(t, e.kind, MatchName(e)).Some?
    requires var was := Table(t, e.kind)[Locate(t, e.kind, MatchName(e)).value];
             row.id == was.id && row.name == was.name && RowFrom(was, row, e)
    ensures var i := Locate(t, e.kind, MatchName(e)).value;
            var t' := WithTable(t, e.kind, Table(t, e.kind)[i := row]);
            NamedStep(t, t', e) && NamedWf(t') && t'.bindings == t.bindings
            && Table(t', e.kind) == Table(t, e.kind)[i := row]
  {
    var rows, i := Table(t, e.kind), Locate(t, e.kind, MatchName(e)).value;
    var t' := WithTable(t, e.kind, rows[i := row]);
    TableUpdate(t, e.kind, rows[i := row], t.nextId);
    assert RowsWf(rows, t.nextId);
    assert Table(t, Role) == t.roles && Table(t', Role) == t'.roles;
    TableUpdateWf(t, t', e.kind);
  }

  // ---- the two row writes ----

  // What the server's answer to the body of a change does to the tenant.
  ghost predicate HandledRow(t: TenantState, c: PlannedChange, body: Request)
  {
    var (t', r) := Handle(t, body);
    && (body.CreateRow? || body.UpdateRow?)
    && NamedStep(t, t', c.entity) && NamedWf(t') && t'.bindings == t.bindings
    && (r.Accepted? ==> RowWritten(t, t', c, r.id))
    && (!r.Accepted? ==> t' == t && r == Refused(DuplicateName))
  }

  lemma CreateEffect(t: TenantState, c: PlannedChange, parent: Option<Id>)
    requires NamedWf(t) && !IsNetwork(c.entity.kind) && c.action.Create? && NamedConsistent(t, c)
    ensures HandledRow(t, c, CreateBody(c.entity, parent))
  {
    var e, body := c.entity, CreateBody(c.entity, parent);
    CreateBodyStates(e, parent);
    HandleCreate(t, body);
    if Handle(t, body).1.Accepted? {
      AppendRow(t, e, NewRow(t, body));
      if MetadataParses(e) { NewRowMatches(t, e, body); }
    }
  }

  // A create is answered with a new row at the end of its table, or refused for its name.
  lemma HandleCreate(t: TenantState, body: Request)
    requires body.CreateRow?
    ensures var (t', r) := Handle(t, body);
            if || (NameIsUnique(body.kind) && LastNamed(Table(t, body.kind), body.name) < |Table(t, body.kind)|)
               || (body.kind.Resource? && SiblingNamed(Table(t, body.kind), body.name, body.parent, None))
            then (t', r) == (t, Refused(DuplicateName))
            else && r == Accepted(t.nextId, 0)
                 && t' == WithTable(t, body.kind, Table(t, body.kind) + [NewRow(t, body)]).(nextId := t.nextId + 1)
  {
  }

  // What a create body says of the entity.
  ghost predicate StatesEntity(e: Entity, body: Request)
  {
    && body.CreateRow? && body.kind == e.kind && body.name == MatchName(e)
    && (e.kind.Resource? || body.description == e.description)
    && (e.kind.Resource? ==> body.metadata == DeclaredMetadata(e))
  }

  lemma CreateBodyStates(e: Entity, parent: Option<Id>)
    requires !IsNetwork(e.kind)
    ensures StatesEntity(e, CreateBody(e, parent))
  {
  }

  function NewRow(t: TenantState, body: Request): Row
    requires body.CreateRow?
  {
    Row(t.nextId, body.name, body.description, body.resourceType, body.isGlobal, body.parent,
        body.metadata.GetOr(JObject(map[])))
  }

  lemma NewRowMatches(t: TenantState, e: Entity, body: Request)
    requires StatesEntity(e, body) && MetadataParses(e)
    ensures FieldsMatch(e, NewRow(t, body))
  {
  }

  lemma UpdateBodyShape(e: Entity, id: Id, parent: Option<Id>)
    requires UpdateBody(e, id, parent).Some?
    ensures var body := UpdateBody(e, id, parent).value;
            body.UpdateRow? && body.kind == e.kind && body.id == id && body.newName in {None, Some(MatchName(e))}
  {
  }

  function RewrittenBy(row: Row, body: Request): Row
    requires body.UpdateRow?
  {
    row.(name := body.newName.GetOr(row.name),
         description := body.newDescription.GetOr(row.description),
         parent := if body.parent.Some? then body.parent else row.parent,
         metadata := body.metadata.GetOr(row.metadata))
  }

  predicate TakesSibling(rows: seq<Row>, i: nat, body: Request)
    requires body.UpdateRow? && i < |rows|
  {
    SiblingNamed(rows, RewrittenBy(rows[i], body).name, RewrittenBy(rows[i], body).parent, Some(body.id))
  }

  lemma HandleUpdate(t: TenantState, body: Request)
    requires body.UpdateRow?
    ensures var (t', r) := Handle(t, body);
            var rows, i := Table(t, body.kind), IndexOfId(Table(t, body.kind), body.id);
            if i == |rows| then (t', r) == (t, Refused(NotFound))
            else if body.kind.Resource? && TakesSibling(rows, i, body) then (t', r) == (t, Refused(DuplicateName))
            else r == Accepted(body.id, 0) && t' == WithTable(t, body.kind, rows[i := RewrittenBy(rows[i], body)])
  {
  }

  lemma UpdateEffect(t: TenantState, c: PlannedChange, parent: Option<Id>)
    requires NamedWf(t) && !IsNetwork(c.entity.kind) && c.action.Update? && NamedConsistent(t, c)
    requires UpdateBody(c.entity, c.id.value, parent).Some?
    ensures HandledRow(t, c, UpdateBody(c.entity, c.id.value, parent).value)
  {
    var e := c.entity;
    var body := UpdateBody(e, c.id.value, parent).value;
    var rows, i := Table(t, e.kind), WrittenAt(t, c);
    assert RowsWf(rows, t.nextId);
    IndexOfIdAt(rows, c.id.value, i);
    UpdateBodyShape(e, c.id.value, parent);
    HandleUpdate(t, body);
    if Handle(t, body).1.Accepted? {
      ReplaceRow(t, e, RewrittenBy(rows[i], body));
    }
  }

  ghost predicate RowEffect(w: World, w': World, c: PlannedChange, r: Result<Id, Failure>)
  {
    && NamedStep(w.tenant, w'.tenant, c.entity) && NamedWf(w'.tenant)
    && w'.tenant.bindings == w.tenant.bindings
    && (r.Ok? ==> RowWritten(w.tenant, w'.tenant, c, r.value))
    && (r.Err? ==> w'.tenant == w.tenant && !Internal(r.error) && r.error != ServerRefused(StaleVersion))
    && (TraceCurrent(w) ==> TraceCurrent(w'))
  }

  lemma CreateRowEffect(w: World, c: PlannedChange, parent: Option<Id>)
    requires NamedWf(w.tenant) && !IsNetwork(c.entity.kind) && NamedConsistent(w.tenant, c) && c.action.Create?
    ensures var (w', r) := WriteRow(w, c.entity, c, parent); RowEffect(w, w', c, r)
  {
    CreateEffect(w.tenant, c, parent);
    SendRow(w, c, CreateBody(c.entity, parent));
  }

  lemma UpdateRowEffect(w: World, c: PlannedChange, parent: Option<Id>)
    requires NamedWf(w.tenant) && !IsNetwork(c.entity.kind) && NamedConsistent(w.tenant, c) && c.action.Update?
    ensures var (w', r) := WriteRow(w, c.entity, c, parent); RowEffect(w, w', c, r)
  {
    var body := UpdateBody(c.entity, c.id.value, parent);
    if body.Some? {
      UpdateEffect(w.tenant, c, parent);
      SendRow(w, c, body.value);
      SentIsWritten(w, c, parent, body.value);
    } else {
      NothingToWrite(w.tenant, c);
    }
  }

  // What is written is what was sent.
  lemma SentIsWritten(w: World, c: PlannedChange, parent: Option<Id>, body: Request)
    requires c.action.Update? && c.id.Some? && UpdateBody(c.entity, c.id.value, parent) == Some(body)
    ensures var (w', r) := Send(w, body);
            WriteRow(w, c.entity, c, parent) == (w', Answer(r))
  {
  }

  lemma WriteRowEffect(w: World, c: PlannedChange, parent: Option<Id>)
    requires NamedWf(w.tenant) && !IsNetwork(c.entity.kind) && NamedConsistent(w.tenant, c) && !c.action.Unchanged?
    ensures var (w', r) := WriteRow(w, c.entity, c, parent); RowEffect(w, w', c, r)
  {
    if c.action.Create? {
      CreateRowEffect(w, c, parent);
    } else {
      UpdateRowEffect(w, c, parent);
    }
  }

  // A subject whose row has nothing of its own to update is as good as written.
  lemma NothingToWrite(t: TenantState, c: PlannedChange)
    requires NamedWf(t) && !IsNetwork(c.entity.kind) && !c.action.Create? && NamedConsistent(t, c)
    requires UpdateBody(c.entity, c.id.value, None).None?
    ensures NamedStep(t, t, c.entity) && RowWritten(t, t, c, c.id.value)
  {
  }

  function Answer(r: Reply): Result<Id, Failure>
  {
    if r.Accepted? then Ok(r.id) else Err(FailureOf(r))
  }

  lemma SendRow(w: World, c: PlannedChange, body: Request)
    requires NamedWf(w.tenant) && HandledRow(w.tenant, c, body)
    ensures var (w', r) := Send(w, body); RowEffect(w, w', c, Answer(r))
  {
    if TraceCurrent(w) { TraceGrows(w, body); }
  }

  lemma PerformBindingsEffect(m: Manifest, resolved: ResolvedIds, w: World, e: Entity, id: Id, create: bool)
    ensures var (w', f) := PerformBindings(m, resolved, w, e, id, create);
            && TouchesOnly(w, w', Subject(e.kind, id), resolved, e.roles, f)
            && (IsSubject(e.kind) && (forall i :: 0 <= i < |e.roles| ==> BindingResolved(resolved, e.roles[i])) ==>
                  !(f.Some? && Internal(f.value)))
            && (!IsSubject(e.kind) ==> f.None?)
  {
    if IsSubject(e.kind) && e.roles != [] {
      var s := Subject(e.kind, id);
      SendListRoles(w, s);
      var (w', current) := CurrentBindings(w, s, create);
      if current.Ok? {
        ReconcileTouches(m, resolved, w', s, current.value, e.roles);
      }
    }
  }

  lemma BindingsKeepWf(t: TenantState, t': TenantState, s: Subject)
    requires NamedWf(t) && OnlySubject(t, t', s) && s.id < t.nextId
    ensures NamedWf(t') && forall k :: Table(t', k) == Table(t, k)
  {
    assert forall k :: Table(t', k) == Table(t, k);
    forall k ensures RowsWf(Table(t', k), t'.nextId) {
      assert RowsWf(Table(t, k), t.nextId);
    }
    forall key | key in t'.bindings ensures key.0.id < t'.nextId {
      if key.0 != s { assert key in t.bindings; }
    }
  }

  // A step of the row followed by a step of that row's own bindings is a step of the entity.
  lemma StepThenBindings(t: TenantState, t1: TenantState, t': TenantState, e: Entity, id: Id, i: nat)
    requires NamedStep(t, t1, e) && NamedWf(t1) && t1.bindings == t.bindings && RowAt(t1, e, id, i)
    requires OnlySubject(t1, t', Subject(e.kind, id))
    ensures NamedStep(t, t', e) && NamedWf(t')
  {
    assert RowsWf(Table(t1, e.kind), t1.nextId);
    BindingsKeepWf(t1, t', Subject(e.kind, id));
    assert OwnSubject(t', e, Subject(e.kind, id)) by { assert Table(t', e.kind)[i].id == id; }
  }

  // Every id a change needs has been resolved before it.
  ghost predicate NeedsResolved(m: Manifest, resolved: ResolvedIds, e: Entity)
  {
    && ParentId(m, resolved, e).Ok?
    && (IsSubject(e.kind) ==> forall i :: 0 <= i < |e.roles| ==> BindingResolved(resolved, e.roles[i]))
  }

  // Performing a named change, under any pattern of failures, is one step of that entity.
  lemma PerformNamedOutcome(m: Manifest, c: PlannedChange, run: Run)
    requires NamedWf(run.world.tenant) && !IsNetwork(c.entity.kind) && NamedConsistent(run.world.tenant, c)
    requires !c.action.Unchanged?
    ensures var o := PerformNamed(m, c, run);
            var t, t' := run.world.tenant, o.run.world.tenant;
            && NamedStep(t, t', c.entity) && NamedWf(t') && OnlyCreatesAdd(t, t', c)
            && (o.failure.None? ==>
                  && o.change.id.Some? && RowWritten(t, t', c, o.change.id.value)
                  && o.run.resolved == run.resolved[(c.entity.kind, c.entity.key) := o.change.id.value])
  {
    var e, t := c.entity, run.world.tenant;
    var parent := ParentId(m, run.resolved, e);
    if parent.Ok? {
      WriteRowEffect(run.world, c, parent.value);
      var (w1, written) := WriteRow(run.world, e, c, parent.value);
      if written.Ok? {
        var resolved := run.resolved[(e.kind, e.key) := written.value];
        PerformBindingsEffect(m, resolved, w1, e, written.value, c.action.Create?);
        var (w2, f) := PerformBindings(m, resolved, w1, e, written.value, c.action.Create?);
        StepThenBindings(t, w1.tenant, w2.tenant, e, written.value, WrittenAt(t, c));
      }
    }
  }

  predicate IsNetworkRequest(req: Request)
  {
    req.ReplacePolicy? || req.CreateSegment? || req.ReplaceSegment? || req.CreateProfile? || req.ReplaceProfile?
  }

  lemma SendNetwork(w: World, req: Request)
    requires IsNetworkRequest(req)
    ensures var t' := Send(w, req).0.tenant;
            && t'.bindings == w.tenant.bindings && w.tenant.nextId <= t'.nextId
            && forall k :: Table(t', k) == Table(w.tenant, k)
  {
  }

  // What performing a network change keeps of the named kinds.
  ghost predicate NamedKept(run: Run, o: Outcome)
  {
    && o.run.world.tenant.bindings == run.world.tenant.bindings
    && run.world.tenant.nextId <= o.run.world.tenant.nextId
    && (forall k :: Table(o.run.world.tenant, k) == Table(run.world.tenant, k))
    && (forall key :: key in o.run.resolved && !IsNetwork(key.0) ==>
          key in run.resolved && o.run.resolved[key] == run.resolved[key])
    && !(o.failure.Some? && o.failure.value.RebindFailure?)
  }

  lemma SegmentKeepsNamed(c: PlannedChange, run: Run)
    requires c.entity.segment.Some? && (!c.action.Create? ==> c.id.Some? && c.readSegment.Some?)
    ensures NamedKept(run, PerformSegment(c, run))
  {
    var spec := c.entity.segment.value;
    SendNetwork(run.world, if c.action.Create? then SegmentCreateBody(spec)
                           else SegmentReplaceBody(spec, c.id.value, c.readSegment.value));
  }

  lemma ProfileKeepsNamed(c: PlannedChange, run: Run)
    requires c.entity.profile.Some? && (!c.action.Create? ==> c.readProfile.Some?)
    ensures NamedKept(run, PerformProfile(c, run))
  {
    var o := PerformProfile(c, run);
    if |o.run.world.trace| > |run.world.trace| {
      SendNetwork(run.world, o.run.world.trace[|run.world.trace|].request);
    }
  }

  // Performing a network change leaves the named kinds alone.
  lemma NetworkKeepsNamed(m: Manifest, c: PlannedChange, run: Run)
    requires Plannable(c) && IsNetwork(c.entity.kind)
    ensures NamedKept(run, Perform(m, c, run))
  {
    if c.entity.kind.NetworkPolicy? {
      SendNetwork(run.world, ReplacePolicy(c.entity.policyCap.value, c.readPolicy.value.version));
    } else if c.entity.kind.NetworkSegment? {
      SegmentKeepsNamed(c, run);
    } else {
      ProfileKeepsNamed(c, run);
    }
  }
}
