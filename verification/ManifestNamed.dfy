// What applying a manifest does to the named kinds: resources, permissions, roles, groups and
// service accounts, and the role bindings of the last two.
module ManifestNamed {
  import opened Prelude
  import opened Json
  import opened ManifestTypes
  import opened Tenant
  import opened ManifestPlan
  import opened ManifestApply
  import opened ManifestNetwork

  ghost predicate NamedWf(t: TenantState)
  {
    && (forall k :: RowsWf(Table(t, k), t.nextId))
    && (forall i, j :: 0 <= i < j < |t.roles| ==> t.roles[i].name != t.roles[j].name)
    && (forall key :: key in t.bindings ==> key.0.id < t.nextId)
  }

  // No two declarations of one named kind are matched to the same server name.
  ghost predicate DistinctNames(m: Manifest)
  {
    forall a, b :: a in m && b in m && a != b && a.kind == b.kind && !IsNetwork(a.kind) ==>
      MatchName(a) != MatchName(b)
  }

  ghost predicate DistinctRoleNames(m: Manifest)
  {
    forall a, b :: a in m && b in m && a != b && a.kind.Role? && b.kind.Role? ==> a.name != b.name
  }

  ghost predicate DistinctSubjectNames(m: Manifest)
  {
    forall a, b :: a in m && b in m && a != b && IsSubject(a.kind) ==> !SameName(a, b)
  }

  // Subjects and roles are told apart by their names.
  ghost predicate BindingNamesDistinct(m: Manifest)
  {
    DistinctRoleNames(m) && DistinctSubjectNames(m)
  }

  // No two changes create rows of one kind under one name.
  ghost predicate NewNamesDistinct(cs: seq<PlannedChange>)
  {
    forall i, j :: 0 <= i < j < |cs| && cs[i].action.Create? && cs[j].action.Create? ==>
      !SameName(cs[i].entity, cs[j].entity)
  }

  // Two declarations matched against one server name.
  predicate SameName(a: Entity, b: Entity)
  {
    a.kind == b.kind && !IsNetwork(a.kind) && MatchName(a) == MatchName(b)
  }

  // ---- finding rows by name ----

  lemma LastNamedAt(rows: seq<Row>, name: string, i: nat)
    requires i < |rows| && rows[i].name == name
    requires forall j :: i < j < |rows| ==> rows[j].name != name
    ensures LastNamed(rows, name) == i
  {
  }

  lemma FirstNamedAt(rows: seq<Row>, name: string, i: nat)
    requires i < |rows| && rows[i].name == name
    requires forall j :: 0 <= j < i ==> rows[j].name != name
    ensures FirstNamed(rows, name) == i
  {
  }

  lemma NoneNamed(rows: seq<Row>, name: string)
    requires forall j :: 0 <= j < |rows| ==> rows[j].name != name
    ensures LastNamed(rows, name) == FirstNamed(rows, name) == |rows|
  {
  }

  // Rows with the same names are searched alike.
  lemma SameNamesFound(rows: seq<Row>, rows': seq<Row>, name: string)
    requires |rows| == |rows'| && forall j :: 0 <= j < |rows| ==> rows'[j].name == rows[j].name
    ensures LastNamed(rows', name) == LastNamed(rows, name)
    ensures FirstNamed(rows', name) == FirstNamed(rows, name)
  {
    var i := LastNamed(rows, name);
    if i < |rows| {
      LastNamedAt(rows', name, i);
      FirstNamedAt(rows', name, FirstNamed(rows, name));
    } else {
      NoneNamed(rows, name);
      NoneNamed(rows', name);
    }
  }

  // A row of another name at the end changes no search.
  lemma AppendFound(rows: seq<Row>, row: Row, name: string)
    requires row.name != name
    ensures var rows' := rows + [row];
            && LastNamed(rows', name) == (if LastNamed(rows, name) < |rows| then LastNamed(rows, name) else |rows'|)
            && FirstNamed(rows', name) == (if FirstNamed(rows, name) < |rows| then FirstNamed(rows, name) else |rows'|)
  {
    var rows' := rows + [row];
    var i := LastNamed(rows, name);
    if i < |rows| {
      LastNamedAt(rows', name, i);
      FirstNamedAt(rows', name, FirstNamed(rows, name));
    } else {
      NoneNamed(rows, name);
      NoneNamed(rows', name);
    }
  }

  // ---- one step of one entity ----

  ghost predicate RowsStep(t: TenantState, t': TenantState, e: Entity)
  {
    var rows, rows', at := Table(t, e.kind), Table(t', e.kind), Locate(t, e.kind, MatchName(e));
    || rows' == rows
    || ((at.None? || e.kind.Resource?) && |rows'| == |rows| + 1 && rows' == rows + [rows'[|rows|]]
        && rows'[|rows|].name == MatchName(e) && rows'[|rows|].id == t.nextId && t'.nextId == t.nextId + 1)
    || (at.Some? && |rows'| == |rows| && rows' == rows[at.value := rows'[at.value]]
        && rows'[at.value].name == MatchName(e) && rows'[at.value].id == rows[at.value].id
        && RowFrom(rows[at.value], rows'[at.value], e))
  }

  // A row rewritten for an entity: each member is as it was, or as the entity states it.
  predicate RowFrom(row: Row, row': Row, e: Entity)
  {
    && (row'.description == row.description || (e.description != "" && row'.description == e.description))
    && (row'.metadata == row.metadata || DeclaredMetadata(e) == Some(row'.metadata))
  }

  // The subject is the row e is matched to.
  ghost predicate OwnSubject(t: TenantState, e: Entity, s: Subject)
  {
    && s.kind == e.kind
    && exists i :: 0 <= i < |Table(t, e.kind)| && Table(t, e.kind)[i].id == s.id && Table(t, e.kind)[i].name == MatchName(e)
  }

  predicate SameBinding(t: TenantState, t': TenantState, key: (Subject, Id))
  {
    && (key in t'.bindings <==> key in t.bindings)
    && (key in t.bindings ==> t'.bindings[key] == t.bindings[key])
  }

  // What performing e may have changed of the named kinds.
  ghost predicate NamedStep(t: TenantState, t': TenantState, e: Entity)
  {
    && SameNetwork(t, t')
    && (forall k :: k != e.kind ==> Table(t', k) == Table(t, k))
    && RowsStep(t, t', e)
    && (forall key: (Subject, Id) :: !OwnSubject(t', e, key.0) ==> SameBinding(t, t', key))
  }

  // ---- what a step leaves alone ----

  // The name is found at the same places, or not found in either.
  predicate FoundAlike(rows: seq<Row>, rows': seq<Row>, name: string)
  {
    && (if LastNamed(rows, name) < |rows| then LastNamed(rows', name) == LastNamed(rows, name)
        else LastNamed(rows', name) == |rows'|)
    && (if FirstNamed(rows, name) < |rows| then FirstNamed(rows', name) == FirstNamed(rows, name)
        else FirstNamed(rows', name) == |rows'|)
  }

  lemma VisibleFrame(t: TenantState, t': TenantState, other: Entity, name: string)
    requires RowsStep(t, t', other) && name != MatchName(other)
    ensures var rows, rows' := Table(t, other.kind), Table(t', other.kind);
            && FoundAlike(Visible(rows), Visible(rows'), name)
            && |Visible(rows)| <= |Visible(rows')|
            && (forall i :: 0 <= i < |Visible(rows)| && rows[i].name == name ==> rows'[i] == rows[i])
  {
    var rows, rows' := Table(t, other.kind), Table(t', other.kind);
    if rows' != rows {
      if |rows'| == |rows| + 1 {
        if |rows| < SCAN_LIMIT {
          AppendFound(rows, rows'[|rows|], name);
        } else {
          assert Visible(rows') == Visible(rows);
        }
      } else {
        SameNamesFound(Visible(rows), Visible(rows'), name);
      }
    }
  }

  lemma LocateAlike(t: TenantState, t': TenantState, kind: Kind, name: string)
    requires var rows, rows' := Table(t, kind), Table(t', kind);
             && FoundAlike(Visible(rows), Visible(rows'), name)
             && |Visible(rows)| <= |Visible(rows')|
             && (forall i :: 0 <= i < |Visible(rows)| && rows[i].name == name ==> rows'[i] == rows[i])
    ensures Locate(t', kind, name) == Locate(t, kind, name)
    ensures Locate(t, kind, name).Some? ==>
              var i := Locate(t, kind, name).value; Table(t', kind)[i] == Table(t, kind)[i]
    ensures kind.ServiceAccount? ==>
              forall e: Entity :: e.kind == kind && MatchName(e) == name ==> (Ambiguous(t', e) <==> Ambiguous(t, e))
  {
  }

  lemma LocateFrame(t: TenantState, t': TenantState, other: Entity, kind: Kind, name: string)
    requires NamedStep(t, t', other)
    requires kind == other.kind ==> name != MatchName(other)
    ensures Locate(t', kind, name) == Locate(t, kind, name)
    ensures Locate(t, kind, name).Some? ==>
              var i := Locate(t, kind, name).value; Table(t', kind)[i] == Table(t, kind)[i]
    ensures kind.ServiceAccount? ==>
              forall e: Entity :: e.kind == kind && MatchName(e) == name ==> (Ambiguous(t', e) <==> Ambiguous(t, e))
  {
    if kind == other.kind {
      VisibleFrame(t, t', other, name);
    }
    LocateAlike(t, t', kind, name);
  }

  // A second resource of the name is what a plan finds from now on: the server keeps resource
  // names unique under one parent only.
  ghost predicate Overrides(t: TenantState, t': TenantState, other: Entity, kind: Kind, name: string)
  {
    kind.Resource? && other.kind.Resource? && name == other.name && |t'.resources| != |t.resources|
  }

  // Once found, a name stays found at the same id, unless it is overridden.
  lemma LocatedIdStays(t: TenantState, t': TenantState, other: Entity, kind: Kind, name: string)
    requires NamedStep(t, t', other) && LocatedId(t, kind, name).Some? && !Overrides(t, t', other, kind, name)
    ensures LocatedId(t', kind, name) == LocatedId(t, kind, name)
  {
    if kind == other.kind && name == MatchName(other) {
      SameNamesFound(Visible(Table(t, kind)), Visible(Table(t', kind)), name);
    } else {
      LocateFrame(t, t', other, kind, name);
    }
  }

  // A held role stays held while the subject's own bindings are untouched.
  lemma HeldRoleStays(t: TenantState, t': TenantState, other: Entity, s: Subject, name: string)
    requires NamedStep(t, t', other) && NamedWf(t') && !OwnSubject(t', other, s)
    requires HeldRole(t, s, name).Some?
    ensures HeldRole(t', s, name) == HeldRole(t, s, name)
  {
    var i := LastNamed(t.roles, name);
    assert t'.roles[i].id == t.roles[i].id && t'.roles[i].name == name by {
      assert Table(t', Role) == t'.roles && Table(t, Role) == t.roles;
    }
    LastNamedAt(t'.roles, name, i);
    assert SameBinding(t, t', (s, t.roles[i].id));
  }

  // The step overrides the name of the resource the binding is narrowed to.
  ghost predicate OverridesNarrowed(m: Manifest, t: TenantState, t': TenantState, other: Entity, b: RoleBinding)
  {
    ResourceName(m, b).Some? && Overrides(t, t', other, Resource, ResourceName(m, b).value)
  }

  lemma BindingHeldStays(m: Manifest, t: TenantState, t': TenantState, other: Entity, s: Subject, b: RoleBinding)
    requires NamedStep(t, t', other) && NamedWf(t') && !OwnSubject(t', other, s)
    requires BindingHeld(m, t, s, b) && !OverridesNarrowed(m, t, t', other, b)
    ensures BindingHeld(m, t', s, b)
  {
    var role := FindKeyOfKind(m, b.role, Role);
    if role.Some? {
      HeldRoleStays(t, t', other, s, role.value.name);
      if b.resource.Some? {
        var res := FindKeyOfKind(m, b.resource.value, Resource);
        LocatedIdStays(t, t', other, Resource, res.value.name);
      }
    }
  }

  // The subject e is matched to is nobody else's.
  lemma SubjectsApart(t: TenantState, e: Entity, other: Entity, i: nat)
    requires NamedWf(t) && i < |Table(t, e.kind)| && Table(t, e.kind)[i].name == MatchName(e)
    requires e.kind == other.kind ==> MatchName(e) != MatchName(other)
    ensures !OwnSubject(t, other, Subject(e.kind, Table(t, e.kind)[i].id))
  {
    assert RowsWf(Table(t, e.kind), t.nextId);
  }

  // A settled entity stays settled through the step of an entity of another name.
  lemma SettledFrame(m: Manifest, t: TenantState, t': TenantState, e: Entity, other: Entity)
    requires HasSpec(e) && !IsNetwork(e.kind) && !SameName(e, other)
    requires NamedStep(t, t', other) && NamedWf(t')
    requires IsSubject(e.kind) ==> forall j :: 0 <= j < |e.roles| ==> !OverridesNarrowed(m, t, t', other, e.roles[j])
    requires Settled(m, t, e)
    ensures Settled(m, t', e)
  {
    LocateFrame(t, t', other, e.kind, MatchName(e));
    var i := Locate(t, e.kind, MatchName(e)).value;
    if IsSubject(e.kind) {
      SubjectsApart(t', e, other, i);
      var s := Subject(e.kind, Table(t, e.kind)[i].id);
      forall j | 0 <= j < |e.roles| ensures BindingHeld(m, t', s, e.roles[j]) {
        BindingHeldStays(m, t, t', other, s, e.roles[j]);
      }
    }
  }

  // ---- planned changes ----

  // An Update of a row of its own states what it changes.
  predicate UpdateStates(c: PlannedChange)
  {
    c.action.Update? ==>
      || IsSubject(c.entity.kind)
      || (c.entity.kind.Resource? && c.entity.metadata.Some?)
      || (!c.entity.kind.Resource? && c.entity.description != "")
  }

  // A planned change stays valid until it is performed; a resource to create may find another of
  // its name created meanwhile.
  ghost predicate NamedConsistent(t: TenantState, c: PlannedChange)
  {
    !IsNetwork(c.entity.kind) ==>
      && ((c.action.Create? && c.entity.kind.Resource?) || c.id == LocatedId(t, c.entity.kind, MatchName(c.entity)))
      && (c.action.Create? <==> c.id.None?)
      && !Ambiguous(t, c.entity)
      && UpdateStates(c)
  }

  // A name that is found is ambiguous afterwards only if it was before.
  lemma AmbiguousStays(t: TenantState, t': TenantState, e: Entity, other: Entity)
    requires NamedStep(t, t', other) && LocatedId(t, e.kind, MatchName(e)).Some?
    ensures Ambiguous(t', e) <==> Ambiguous(t, e)
  {
    if e.kind.ServiceAccount? {
      if SameName(e, other) {
        SameNamesFound(Visible(t.accounts), Visible(t'.accounts), e.name);
      } else {
        LocateFrame(t, t', other, e.kind, MatchName(e));
      }
    }
  }

  predicate OnlyCreatesAdd(t: TenantState, t': TenantState, c: PlannedChange)
  {
    !c.action.Create? ==> |Table(t', c.entity.kind)| == |Table(t, c.entity.kind)|
  }

  lemma NamedConsistentFrame(t: TenantState, t': TenantState, c: PlannedChange, done: PlannedChange)
    requires SameName(c.entity, done.entity) ==>
               && (c.action.Create? <==> done.action.Create?)
               && (c.action.Create? ==> c.entity.kind.Resource?)
    requires NamedConsistent(t, c) && NamedConsistent(t, done) && NamedStep(t, t', done.entity)
    requires OnlyCreatesAdd(t, t', done)
    ensures NamedConsistent(t', c)
  {
    if !IsNetwork(c.entity.kind) && !(c.action.Create? && c.entity.kind.Resource?) {
      if SameName(c.entity, done.entity) {
        LocatedIdStays(t, t', done.entity, c.entity.kind, MatchName(c.entity));
        AmbiguousStays(t, t', c.entity, done.entity);
      } else {
        LocateFrame(t, t', done.entity, c.entity.kind, MatchName(c.entity));
      }
    }
  }

  // ---- entities that share a name ----

  // What two declarations of one name both state, they state alike.
  predicate FieldsAgree(a: Entity, b: Entity)
  {
    && (!a.kind.Resource? && a.description != "" && b.description != "" ==> a.description == b.description)
    && (a.kind.Resource? && a.metadata.Some? && b.metadata.Some? ==>
          a.metadata.value.parsed == b.metadata.value.parsed)
  }

  // The name of the resource a binding is narrowed to.
  function ResourceName(m: Manifest, b: RoleBinding): Option<string>
  {
    if b.resource.None? then None
    else
      var r := FindKeyOfKind(m, b.resource.value, Resource);
      if r.Some? then Some(r.value.name) else None
  }

  // Bindings of roles of one name ask for the same.
  predicate BindingsAlike(m: Manifest, x: RoleBinding, y: RoleBinding)
  {
    var p, q := FindKeyOfKind(m, x.role, Role), FindKeyOfKind(m, y.role, Role);
    p.Some? && q.Some? && p.value.name == q.value.name ==>
      ResourceName(m, x) == ResourceName(m, y) && x.Narrowed() == y.Narrowed()
  }

  predicate BindingsAgree(m: Manifest, a: Entity, b: Entity)
  {
    IsSubject(a.kind) ==>
      forall i, j :: 0 <= i < |a.roles| && 0 <= j < |b.roles| ==> BindingsAlike(m, a.roles[i], b.roles[j])
  }

  // Declarations that share a name do not contradict each other, nor one itself by naming one
  // role under two keys.
  ghost predicate NamesAgree(m: Manifest)
  {
    forall a, b :: a in m && b in m && SameName(a, b) ==> FieldsAgree(a, b) && BindingsAgree(m, a, b)
  }

  // The row the first is matched to still matches it after the second rewrote it.
  lemma FieldsStay(e: Entity, other: Entity, row: Row, row': Row)
    requires SameName(e, other) && FieldsAgree(e, other) && FieldsMatch(e, row) && RowFrom(row, row', other)
    ensures FieldsMatch(e, row')
  {
  }

  lemma SharedRowStays(t: TenantState, t': TenantState, e: Entity, other: Entity)
    requires SameName(e, other) && FieldsAgree(e, other) && NamedStep(t, t', other)
    requires !Overrides(t, t', other, e.kind, MatchName(e))
    requires Locate(t, e.kind, MatchName(e)).Some? && !Ambiguous(t, e)
    requires FieldsMatch(e, Table(t, e.kind)[Locate(t, e.kind, MatchName(e)).value])
    ensures Locate(t', e.kind, MatchName(e)) == Locate(t, e.kind, MatchName(e)) && !Ambiguous(t', e)
    ensures var i := Locate(t, e.kind, MatchName(e)).value;
            Table(t', e.kind)[i].id == Table(t, e.kind)[i].id && FieldsMatch(e, Table(t', e.kind)[i])
  {
    var rows, rows', i := Table(t, e.kind), Table(t', e.kind), Locate(t, e.kind, MatchName(e)).value;
    AmbiguousStays(t, t', e, other);
    SameNamesFound(Visible(rows), Visible(rows'), MatchName(e));
    if rows' != rows {
      FieldsStay(e, other, rows[i], rows'[i]);
    }
  }
}
