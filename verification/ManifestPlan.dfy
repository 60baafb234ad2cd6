// ManifestApi::plan: the difference between a manifest and a tenant, entity by entity.
module ManifestPlan {
  import opened Prelude
  import opened Json
  import opened ManifestTypes
  import opened ManifestOrder
  import opened Tenant

  const SCAN_LIMIT := 200

  datatype Action = Unchanged | Create | Update

  datatype ProfileRead = ProfileRead(profile: ProfileRow, clamped: bool)

  datatype PlannedChange = PlannedChange(
    entity: Entity,
    action: Action,
    id: Option<Id>,
    readSegment: Option<SegmentRow>,
    readProfile: Option<ProfileRead>,
    readPolicy: Option<PolicyRow>)

  datatype PlanError =
    | Incoherent
    | AmbiguousAccount(name: string)
    | UnknownCarried(segment: string)

  // ---- the named kinds ----

  // The first page of a list call.
  function Visible(rows: seq<Row>): seq<Row>
  {
    if |rows| <= SCAN_LIMIT then rows else rows[..SCAN_LIMIT]
  }

  // Where the scan finds the row an entity is matched to: the last row of that name for every
  // kind but a service account, which keeps the first.
  function Locate(t: TenantState, kind: Kind, name: string): (r: Option<nat>)
    ensures r.Some? ==> r.value < |Table(t, kind)| && Table(t, kind)[r.value].name == name
  {
    var rows := Visible(Table(t, kind));
    var i := if kind.ServiceAccount? then FirstNamed(rows, name) else LastNamed(rows, name);
    if i < |rows| then Some(i) else None
  }

  function LocatedId(t: TenantState, kind: Kind, name: string): Option<Id>
  {
    var at := Locate(t, kind, name);
    if at.Some? then Some(Table(t, kind)[at.value].id) else None
  }

  // A second account of that name on the page.
  predicate Ambiguous(t: TenantState, e: Entity)
  {
    && e.kind.ServiceAccount?
    && var rows := Visible(t.accounts);
       FirstNamed(rows, e.name) < LastNamed(rows, e.name) < |rows|
  }

  // JSON value equality of the whole object.
  predicate MetadataEqual(declared: JsonText, stored: Json) { declared.parsed == Some(stored) }

  predicate Satisfied(a: Assignment, resource: Option<Id>, narrowed: bool)
  {
    a.resource == resource && a.Narrowed() == narrowed
  }

  // Whether the subject's bindings already match one declared binding.
  predicate BindingHeld(m: Manifest, t: TenantState, s: Subject, b: RoleBinding)
  {
    var role := FindKeyOfKind(m, b.role, Role);
    role.Some? ==>
      var held := HeldRole(t, s, role.value.name);
      if b.resource.None? then held.Some? && Satisfied(held.value, None, b.Narrowed())
      else
        var res := FindKeyOfKind(m, b.resource.value, Resource);
        var id := if res.Some? then LocatedId(t, Resource, res.value.name) else None;
        held.Some? && id.Some? && Satisfied(held.value, id, b.Narrowed())
  }

  ghost predicate BindingsHeld(m: Manifest, t: TenantState, s: Subject, bs: seq<RoleBinding>)
  {
    forall i :: 0 <= i < |bs| ==> BindingHeld(m, t, s, bs[i])
  }

  // Only what the manifest states and the server stores is compared.
  predicate FieldsMatch(e: Entity, row: Row)
  {
    && (!e.kind.Resource? && e.description != "" ==> e.description == row.description)
    && (e.kind.Resource? && e.metadata.Some? ==> MetadataEqual(e.metadata.value, row.metadata))
  }

  ghost predicate Drifted(m: Manifest, t: TenantState, e: Entity, row: Row)
  {
    || !FieldsMatch(e, row)
    || (IsSubject(e.kind) && !BindingsHeld(m, t, Subject(e.kind, row.id), e.roles))
  }

  function Change(e: Entity, action: Action, id: Option<Id>): PlannedChange
  {
    PlannedChange(e, action, id, None, None, None)
  }

  ghost function PlanNamed(m: Manifest, t: TenantState, e: Entity): Result<PlannedChange, PlanError>
  {
    var at := Locate(t, e.kind, MatchName(e));
    if at.None? then Ok(Change(e, Create, None))
    else if Ambiguous(t, e) then Err(AmbiguousAccount(e.name))
    else
      var row := Table(t, e.kind)[at.value];
      Ok(Change(e, if Drifted(m, t, e, row) then Update else Unchanged, Some(row.id)))
  }

  // ---- the network kinds ----

  // The wire spelling of a decoded segment kind: an unknown kind prints as the empty string.
  function WireKind(kind: string): string
  {
    if kind == "access" || kind == "quarantine" then kind else ""
  }

  predicate SegmentMatches(row: SegmentRow, spec: SegmentSpec)
  {
    row.site == spec.site && WireKind(row.kind) == spec.kind && row.name == spec.name
  }

  // The first segment read with the spec's natural key; |rows| when there is none.
  function FindSegment(rows: seq<SegmentRow>, spec: SegmentSpec): (i: nat)
    ensures i <= |rows|
    ensures i < |rows| ==> SegmentMatches(rows[i], spec)
    ensures forall j :: 0 <= j < i ==> !SegmentMatches(rows[j], spec)
  {
    if rows == [] then 0
    else if SegmentMatches(rows[0], spec) then 0
    else 1 + FindSegment(rows[1..], spec)
  }

  predicate SameSet(a: seq<string>, b: seq<string>)
  {
    (set x | x in a) == (set x | x in b)
  }

  predicate SegmentDrifted(want: SegmentSpec, have: SegmentRow)
  {
    || want.vlan != have.vlan
    || (want.rank.Some? && want.rank.value != have.rank)
    || (want.filterIds.Some? && !SameSet(want.filterIds.value, have.filterIds))
    || (want.enabled.Some? && want.enabled.value != have.enabled)
  }

  predicate ProfileDrifted(want: ProfileSpec, have: ProfileRow)
  {
    || want.sessionTimeout != have.sessionTimeout
    || (want.termination.Some? && want.termination.value != have.termination)
    || (want.idle.Some? && want.idle.value != have.idle)
    || (want.filterId.Some? && want.filterId.value != have.filterId)
    || (want.serviceType.Some? && want.serviceType.value != have.serviceType)
  }

  // An Update would carry an open-enum value this SDK does not know.
  predicate CarriesUnknown(want: ProfileSpec, have: ProfileRow)
  {
    || (want.termination.None? && have.termination.TerminationUnknown?)
    || (want.serviceType.None? && have.serviceType == Some(ServiceTypeUnknown))
  }

  // The segment row a profile belongs to; |t.segments| when it does not exist yet.
  function ProfileSegment(m: Manifest, t: TenantState, e: Entity): (i: nat)
    requires e.profile.Some?
    ensures i <= |t.segments|
  {
    var spec := FindKeyOfKind(m, e.profile.value.segment, NetworkSegment);
    if spec.Some? && spec.value.segment.Some? then FindSegment(t.segments, spec.value.segment.value)
    else |t.segments|
  }

  // The profile row a declaration is matched to; |t.profiles| when there is none.
  function ProfileIndex(m: Manifest, t: TenantState, e: Entity): (j: nat)
    requires e.profile.Some?
    ensures j <= |t.profiles|
    ensures j < |t.profiles| ==>
              var i := ProfileSegment(m, t, e);
              i < |t.segments| && t.profiles[j].segmentId == t.segments[i].id
  {
    var i := ProfileSegment(m, t, e);
    if i < |t.segments| then ProfileOf(t.profiles, t.segments[i].id) else |t.profiles|
  }

  function PlanNetwork(m: Manifest, t: TenantState, e: Entity): Result<PlannedChange, PlanError>
    requires e.kind.NetworkPolicy? ==> e.policyCap.Some?
    requires e.kind.NetworkSegment? ==> e.segment.Some?
    requires e.kind.NetworkProfile? ==> e.profile.Some?
  {
    match e.kind
    case NetworkPolicy =>
      var action := if e.policyCap.value != t.policy.cap then Update else Unchanged;
      Ok(Change(e, action, None).(readPolicy := Some(t.policy)))
    case NetworkSegment =>
      var i := FindSegment(t.segments, e.segment.value);
      if i == |t.segments| then Ok(Change(e, Create, None))
      else
        var have := t.segments[i];
        var action := if SegmentDrifted(e.segment.value, have) then Update else Unchanged;
        Ok(Change(e, action, Some(have.id)).(readSegment := Some(have)))
    case NetworkProfile =>
      var j := ProfileIndex(m, t, e);
      if j == |t.profiles| then Ok(Change(e, Create, None))
      else
        var have := Effective(t.profiles[j], t.policy.cap);
        var drifted := ProfileDrifted(e.profile.value, have);
        if drifted && CarriesUnknown(e.profile.value, have) then Err(UnknownCarried(e.profile.value.segment))
        else
          var read := ProfileRead(have, Clamped(t.profiles[j], t.policy.cap));
          Ok(Change(e, if drifted then Update else Unchanged, Some(have.segmentId)).(readProfile := Some(read)))
    case _ => Ok(Change(e, Unchanged, None))
  }

  // ---- the plan ----

  predicate HasSpec(e: Entity)
  {
    && (e.kind.NetworkPolicy? ==> e.policyCap.Some?)
    && (e.kind.NetworkSegment? ==> e.segment.Some?)
    && (e.kind.NetworkProfile? ==> e.profile.Some?)
  }

  ghost function PlanEntity(m: Manifest, t: TenantState, e: Entity): Result<PlannedChange, PlanError>
    requires HasSpec(e)
  {
    if IsNetwork(e.kind) then PlanNetwork(m, t, e) else PlanNamed(m, t, e)
  }

  // The changes of the first n entities, or the first refusal.
  ghost function PlanSeq(m: Manifest, t: TenantState, es: seq<Entity>, n: nat): (r: Result<seq<PlannedChange>, PlanError>)
    requires n <= |es| && forall e :: e in es ==> HasSpec(e)
    ensures r.Ok? ==> |r.value| == n
    ensures r.Ok? ==> forall i :: 0 <= i < n ==> PlanEntity(m, t, es[i]) == Ok(r.value[i])
  {
    if n == 0 then Ok([])
    else
      var front := PlanSeq(m, t, es, n - 1);
      if front.Err? then front
      else
        var last := PlanEntity(m, t, es[n - 1]);
        if last.Err? then Err(last.error) else Ok(front.value + [last.value])
  }

  // Entities that plan on their own plan together.
  lemma {:induction false} PlanSeqOk(m: Manifest, t: TenantState, es: seq<Entity>, n: nat)
    requires n <= |es| && forall e :: e in es ==> HasSpec(e)
    requires forall e :: e in es ==> PlanEntity(m, t, e).Ok?
    ensures PlanSeq(m, t, es, n).Ok?
  {
    if n > 0 {
      PlanSeqOk(m, t, es, n - 1);
    }
  }

  // A refusal stops the plan.
  lemma {:induction false} PlanSeqStops(m: Manifest, t: TenantState, es: seq<Entity>, n: nat, k: nat)
    requires n <= k <= |es| && forall e :: e in es ==> HasSpec(e)
    requires PlanSeq(m, t, es, n).Err?
    ensures PlanSeq(m, t, es, k) == PlanSeq(m, t, es, n)
  {
    if n < k {
      PlanSeqStops(m, t, es, n, k - 1);
    }
  }

  ghost function Plan(m: Manifest, t: TenantState): (r: Result<seq<PlannedChange>, PlanError>)
  {
    if !Coherent(m) then Err(Incoherent)
    else
      OrderedSpecs(m);
      PlanSeq(m, t, Ordered(m), |Ordered(m)|)
  }

  lemma OrderedSpecs(m: Manifest)
    requires Coherent(m)
    ensures forall e :: e in Ordered(m) ==> e in m && HasSpec(e)
  {
    OrderedSpec(m);
    forall e | e in m ensures HasSpec(e) {
      assert EntityOk(m, e);
    }
  }

  function Pending(changes: seq<PlannedChange>): seq<PlannedChange>
  {
    if changes == [] then []
    else if changes[0].action.Unchanged? then Pending(changes[1..])
    else [changes[0]] + Pending(changes[1..])
  }

  // The plan reports nothing to do for the entity.
  ghost predicate Settled(m: Manifest, t: TenantState, e: Entity)
    requires HasSpec(e)
  {
    var c := PlanEntity(m, t, e);
    c.Ok? && c.value.action.Unchanged?
  }

  ghost predicate Converged(m: Manifest, t: TenantState)
  {
    var p := Plan(m, t);
    p.Ok? && forall c :: c in p.value ==> c.action.Unchanged?
  }

  // The plan is all Unchanged exactly when every entity is settled.
  lemma ConvergedIffSettled(m: Manifest, t: TenantState)
    requires Coherent(m)
    requires forall e :: e in m ==> HasSpec(e)
    ensures Converged(m, t) <==> forall e :: e in m ==> Settled(m, t, e)
  {
    OrderedSpec(m);
    OrderedSpecs(m);
    var es := Ordered(m);
    if forall e :: e in m ==> Settled(m, t, e) {
      PlanSeqOk(m, t, es, |es|);
      forall c | c in Plan(m, t).value ensures c.action.Unchanged? {
        var i :| 0 <= i < |es| && Plan(m, t).value[i] == c;
        assert es[i] in m && Settled(m, t, es[i]);
      }
    }
    if Converged(m, t) {
      forall e | e in m ensures Settled(m, t, e) {
        var i :| 0 <= i < |es| && es[i] == e;
        assert Plan(m, t).value[i] in Plan(m, t).value;
      }
    }
  }
}
