// The tenant as the management endpoints show it: what a read returns, what each write does,
// and which writes the server refuses.
module Tenant {
  import opened Prelude
  import opened Json
  import opened ManifestTypes

  type Id = nat

  // A resource, permission, role, group or service account. `name` is what the kind is known
  // by: the action for a permission.
  datatype Row = Row(
    id: Id,
    name: string,
    description: string,
    resourceType: string,
    isGlobal: bool,
    parent: Option<Id>,
    metadata: Json)

  datatype Subject = Subject(kind: Kind, id: Id)

  datatype Assignment = Assignment(resource: Option<Id>, inherit: Option<bool>, scope: Option<seq<string>>)
  {
    predicate Narrowed() { inherit == Some(false) }
  }

  datatype SegmentRow = SegmentRow(
    id: Id,
    site: string,
    kind: string,
    name: string,
    vlan: int,
    filterIds: seq<string>,
    rank: Option<int>,
    enabled: bool,
    version: int)

  datatype ProfileInput = ProfileInput(
    dictionary: Option<string>,
    sessionTimeout: int,
    termination: Option<TerminationAction>,
    idle: Option<int>,
    filterId: Option<string>,
    serviceType: Option<ServiceType>)

  datatype ProfileRow = ProfileRow(
    segmentId: Id,
    dictionary: string,
    sessionTimeout: int,
    termination: TerminationAction,
    idle: Option<int>,
    filterId: Option<string>,
    serviceType: Option<ServiceType>,
    version: int)

  datatype PolicyRow = PolicyRow(cap: int, version: int)

  datatype TenantState = TenantState(
    resources: seq<Row>,
    permissions: seq<Row>,
    roles: seq<Row>,
    groups: seq<Row>,
    accounts: seq<Row>,
    bindings: map<(Subject, Id), Assignment>,
    policy: PolicyRow,
    segments: seq<SegmentRow>,
    profiles: seq<ProfileRow>,
    nextId: Id)

  // ---- tables ----

  function Table(t: TenantState, k: Kind): seq<Row>
  {
    match k
    case Resource => t.resources
    case Permission => t.permissions
    case Role => t.roles
    case Group => t.groups
    case ServiceAccount => t.accounts
    case _ => []
  }

  function WithTable(t: TenantState, k: Kind, rows: seq<Row>): TenantState
  {
    match k
    case Resource => t.(resources := rows)
    case Permission => t.(permissions := rows)
    case Role => t.(roles := rows)
    case Group => t.(groups := rows)
    case ServiceAccount => t.(accounts := rows)
    case _ => t
  }

  // The kinds whose name the server keeps unique. A resource's name is unique only within its
  // parent, and a service account's not at all.
  predicate NameIsUnique(k: Kind) { k.Permission? || k.Role? || k.Group? }

  // A row other than `but` has the name under the same parent.
  predicate SiblingNamed(rows: seq<Row>, name: string, parent: Option<Id>, but: Option<Id>)
  {
    exists i :: 0 <= i < |rows| && rows[i].name == name && rows[i].parent == parent && Some(rows[i].id) != but
  }

  // The last row with the name; |rows| when there is none.
  function LastNamed(rows: seq<Row>, name: string): (i: nat)
    ensures i <= |rows|
    ensures i < |rows| ==> rows[i].name == name && forall j :: i < j < |rows| ==> rows[j].name != name
    ensures i == |rows| ==> forall j :: 0 <= j < |rows| ==> rows[j].name != name
  {
    if rows == [] then 0
    else if rows[|rows| - 1].name == name then |rows| - 1
    else
      var i := LastNamed(rows[..|rows| - 1], name);
      if i < |rows| - 1 then i else |rows|
  }

  // The first row with the name; |rows| when there is none.
  function FirstNamed(rows: seq<Row>, name: string): (i: nat)
    ensures i <= |rows|
    ensures i < |rows| ==> rows[i].name == name
    ensures forall j :: 0 <= j < i ==> rows[j].name != name
  {
    if rows == [] then 0
    else if rows[0].name == name then 0
    else 1 + FirstNamed(rows[1..], name)
  }

  function IndexOfId(rows: seq<Row>, id: Id): (i: nat)
    ensures i <= |rows|
    ensures i < |rows| ==> rows[i].id == id
    ensures forall j :: 0 <= j < i ==> rows[j].id != id
  {
    if rows == [] then 0
    else if rows[0].id == id then 0
    else 1 + IndexOfId(rows[1..], id)
  }

  function SegmentWithId(rows: seq<SegmentRow>, id: Id): (i: nat)
    ensures i <= |rows|
    ensures i < |rows| ==> rows[i].id == id
    ensures forall j :: 0 <= j < i ==> rows[j].id != id
  {
    if rows == [] then 0
    else if rows[0].id == id then 0
    else 1 + SegmentWithId(rows[1..], id)
  }

  function ProfileOf(rows: seq<ProfileRow>, segmentId: Id): (i: nat)
    ensures i <= |rows|
    ensures i < |rows| ==> rows[i].segmentId == segmentId
    ensures forall j :: 0 <= j < i ==> rows[j].segmentId != segmentId
  {
    if rows == [] then 0
    else if rows[0].segmentId == segmentId then 0
    else 1 + ProfileOf(rows[1..], segmentId)
  }

  // The role assignment a subject holds under a role name.
  function HeldRole(t: TenantState, s: Subject, roleName: string): Option<Assignment>
  {
    var i := LastNamed(t.roles, roleName);
    if i < |t.roles| && (s, t.roles[i].id) in t.bindings then Some(t.bindings[(s, t.roles[i].id)])
    else None
  }

  // Every assignment of a subject, by role name.
  function HeldRoles(t: TenantState, s: Subject): map<string, Assignment>
  {
    map name | name in (set r | r in t.roles :: r.name) && HeldRole(t, s, name).Some?
      :: HeldRole(t, s, name).value
  }

  lemma HeldRolesLookup(t: TenantState, s: Subject, name: string)
    ensures name in HeldRoles(t, s) <==> HeldRole(t, s, name).Some?
    ensures name in HeldRoles(t, s) ==> HeldRoles(t, s)[name] == HeldRole(t, s, name).value
  {
    var i := LastNamed(t.roles, name);
    if i < |t.roles| {
      assert t.roles[i] in t.roles;
    }
  }

  // ---- effective values ----

  function Min(a: int, b: int): int { if a <= b then a else b }

  // A profile read carries the effective profile: the timeout lowered to the cap, and no idle
  // timeout above it.
  function Effective(p: ProfileRow, cap: int): ProfileRow
  {
    var session := Min(p.sessionTimeout, cap);
    p.(sessionTimeout := session,
       idle := if p.idle.Some? then Some(Min(p.idle.value, session)) else None)
  }

  predicate Clamped(p: ProfileRow, cap: int) { p.sessionTimeout > cap }

  // ---- requests ----

  datatype Request =
    | CreateRow(kind: Kind, name: string, description: string, resourceType: string, isGlobal: bool,
                parent: Option<Id>, metadata: Option<Json>)
    | UpdateRow(kind: Kind, id: Id, newName: Option<string>, newDescription: Option<string>,
                parent: Option<Id>, metadata: Option<Json>)
    | ListRoles(subject: Subject)
    | Assign(subject: Subject, role: Id, resource: Option<Id>, inherit: Option<bool>, scope: Option<seq<string>>)
    | Unassign(subject: Subject, role: Id, resource: Option<Id>)
    | ReplacePolicy(cap: int, version: int)
    | CreateSegment(site: string, segmentKind: string, name: string, vlan: int, rank: Option<int>,
                    filterIds: Option<seq<string>>, enabled: Option<bool>)
    | ReplaceSegment(id: Id, version: int, vlan: int, newFilterIds: seq<string>, nowEnabled: bool, rank: Option<int>)
    | CreateProfile(segmentId: Id, segmentVersion: int, input: ProfileInput)
    | ReplaceProfile(segmentId: Id, version: int, segmentVersion: int, input: ProfileInput)

  datatype Reason =
    | StaleVersion
    | AboveCap
    | IdleAboveSession
    | DuplicateName
    | AlreadyAssigned
    | ProfileExists
    | NotFound

  datatype Reply = Accepted(id: Id, version: int) | Refused(reason: Reason) | Failed

  // The `tenant_scope: []` shape is never sent; an empty list is left out of the body.
  function WireScope(scope: Option<seq<string>>): Option<seq<string>>
  {
    if scope == Some([]) then None else scope
  }

  function StoredProfile(segmentId: Id, input: ProfileInput, version: int): ProfileRow
  {
    ProfileRow(segmentId, input.dictionary.GetOr("axiam-radius-reply/1"), input.sessionTimeout,
               input.termination.GetOr(RadiusRequest), input.idle, input.filterId, input.serviceType, version)
  }

  // The value rules a profile write must meet.
  function ProfileRefusal(t: TenantState, input: ProfileInput): Option<Reason>
  {
    if input.sessionTimeout > t.policy.cap then Some(AboveCap)
    else if input.idle.Some? && input.idle.value > input.sessionTimeout then Some(IdleAboveSession)
    else None
  }

  // What the server does with a request it answers. A refusal changes nothing.
  function Handle(t: TenantState, req: Request): (TenantState, Reply)
  {
    match req
    case CreateRow(kind, name, description, resourceType, isGlobal, parent, metadata) =>
      var rows := Table(t, kind);
      if NameIsUnique(kind) && LastNamed(rows, name) < |rows| then (t, Refused(DuplicateName))
      else if kind.Resource? && SiblingNamed(rows, name, parent, None) then (t, Refused(DuplicateName))
      else
        var row := Row(t.nextId, name, description, resourceType, isGlobal, parent,
                       metadata.GetOr(JObject(map[])));
        (WithTable(t, kind, rows + [row]).(nextId := t.nextId + 1), Accepted(t.nextId, 0))
    case UpdateRow(kind, id, name, description, parent, metadata) =>
      var rows := Table(t, kind);
      var i := IndexOfId(rows, id);
      if i == |rows| then (t, Refused(NotFound))
      else
        var row := rows[i].(name := name.GetOr(rows[i].name),
                            description := description.GetOr(rows[i].description),
                            parent := if parent.Some? then parent else rows[i].parent,
                            metadata := metadata.GetOr(rows[i].metadata));
        if kind.Resource? && SiblingNamed(rows, row.name, row.parent, Some(id)) then (t, Refused(DuplicateName))
        else (WithTable(t, kind, rows[i := row]), Accepted(id, 0))
    case ListRoles(subject) => (t, Accepted(subject.id, 0))
    case Assign(subject, role, resource, inherit, scope) =>
      if (subject, role) in t.bindings then (t, Refused(AlreadyAssigned))
      else (t.(bindings := t.bindings[(subject, role) := Assignment(resource, inherit, WireScope(scope))]),
            Accepted(role, 0))
    case Unassign(subject, role, resource) =>
      if (subject, role) !in t.bindings || t.bindings[(subject, role)].resource != resource
      then (t, Refused(NotFound))
      else (t.(bindings := t.bindings - {(subject, role)}), Accepted(role, 0))
    case ReplacePolicy(cap, version) =>
      if version != t.policy.version then (t, Refused(StaleVersion))
      else (t.(policy := PolicyRow(cap, version + 1)), Accepted(0, version + 1))
    case CreateSegment(site, kind, name, vlan, rank, filterIds, enabled) =>
      var row := SegmentRow(t.nextId, site, kind, name, vlan, filterIds.GetOr([]), rank, enabled.GetOr(true), 1);
      (t.(segments := t.segments + [row], nextId := t.nextId + 1), Accepted(t.nextId, 1))
    case ReplaceSegment(id, version, vlan, filterIds, enabled, rank) =>
      var i := SegmentWithId(t.segments, id);
      if i == |t.segments| then (t, Refused(NotFound))
      else if t.segments[i].version != version then (t, Refused(StaleVersion))
      else
        var row := t.segments[i].(vlan := vlan, filterIds := filterIds, enabled := enabled, rank := rank,
                                  version := version + 1);
        (t.(segments := t.segments[i := row]), Accepted(id, version + 1))
    case CreateProfile(segmentId, segmentVersion, input) =>
      var i := SegmentWithId(t.segments, segmentId);
      if i == |t.segments| then (t, Refused(NotFound))
      else if t.segments[i].version != segmentVersion then (t, Refused(StaleVersion))
      else if ProfileOf(t.profiles, segmentId) < |t.profiles| then (t, Refused(ProfileExists))
      else if ProfileRefusal(t, input).Some? then (t, Refused(ProfileRefusal(t, input).value))
      else (t.(profiles := t.profiles + [StoredProfile(segmentId, input, 1)]), Accepted(segmentId, 1))
    case ReplaceProfile(segmentId, version, segmentVersion, input) =>
      var i := SegmentWithId(t.segments, segmentId);
      var j := ProfileOf(t.profiles, segmentId);
      if i == |t.segments| || j == |t.profiles| then (t, Refused(NotFound))
      else if t.segments[i].version != segmentVersion || t.profiles[j].version != version
      then (t, Refused(StaleVersion))
      else if ProfileRefusal(t, input).Some? then (t, Refused(ProfileRefusal(t, input).value))
      else (t.(profiles := t.profiles[j := StoredProfile(segmentId, input, version + 1)]),
            Accepted(segmentId, version + 1))
  }

  // A conditional write carries the versions the server holds.
  predicate VersionsCurrent(t: TenantState, req: Request)
  {
    match req
    case ReplacePolicy(_, version) => version == t.policy.version
    case ReplaceSegment(id, version, _, _, _, _) =>
      var i := SegmentWithId(t.segments, id);
      i < |t.segments| && t.segments[i].version == version
    case CreateProfile(segmentId, segmentVersion, _) =>
      var i := SegmentWithId(t.segments, segmentId);
      i < |t.segments| && t.segments[i].version == segmentVersion
    case ReplaceProfile(segmentId, version, segmentVersion, _) =>
      var i := SegmentWithId(t.segments, segmentId);
      var j := ProfileOf(t.profiles, segmentId);
      && i < |t.segments| && t.segments[i].version == segmentVersion
      && j < |t.profiles| && t.profiles[j].version == version
    case _ => true
  }

  // ---- the wire: any call may fail, and then it has no effect ----

  datatype Sent = Sent(before: TenantState, request: Request)

  // `faults` holds the numbers of the calls that fail.
  datatype World = World(tenant: TenantState, trace: seq<Sent>, faults: set<nat>)

  function Send(w: World, req: Request): (World, Reply)
  {
    var w' := w.(trace := w.trace + [Sent(w.tenant, req)]);
    if |w.trace| in w.faults then (w', Failed)
    else
      var (t', reply) := Handle(w.tenant, req);
      (w'.(tenant := t'), reply)
  }

  // ---- what the server keeps true of its own tables ----

  ghost predicate RowsWf(rows: seq<Row>, nextId: Id)
  {
    && (forall i :: 0 <= i < |rows| ==> rows[i].id < nextId)
    && (forall i, j :: 0 <= i < j < |rows| ==> rows[i].id != rows[j].id)
  }
}
