// ManifestApi::apply as a function of the world: what is sent, in which order, and what the
// report says. The loops of the source are proved against it in ManifestApi.dfy.
module ManifestApply {
  import opened Prelude
  import opened Json
  import opened ManifestTypes
  import opened Tenant
  import opened ManifestPlan

  // (kind, manifest-local key) -> server id.
  type ResolvedIds = map<(Kind, string), Id>

  // manifest-local segment key -> the version last known of it.
  type SegmentVersions = map<string, int>

  datatype Failure =
    | CallFailed
    | ServerRefused(reason: Reason)
    | LocalRefusal
    | Unresolved(kind: Kind, key: string)
    | NoVersion(key: string)
    | RebindFailure(original: Reply, role: Id, resource: Option<Id>, restored: bool, restoreError: Option<Reply>)

  function FailureOf(r: Reply): Failure
    requires !r.Accepted?
  {
    if r.Refused? then ServerRefused(r.reason) else CallFailed
  }

  // ---- role bindings ----

  // The only value of `inherit` that reaches the wire is false.
  function WireInherit(narrowed: bool): Option<bool> { if narrowed then Some(false) else None }

  function ResolveResource(resolved: ResolvedIds, b: RoleBinding): Result<Option<Id>, Failure>
  {
    if b.resource.None? then Ok(None)
    else if (Resource, b.resource.value) in resolved then Ok(Some(resolved[(Resource, b.resource.value)]))
    else Err(Unresolved(Resource, b.resource.value))
  }

  function AssignRequest(s: Subject, role: Id, resource: Option<Id>, narrowed: bool, scope: Option<seq<string>>): Request
  {
    Assign(s, role, resource, WireInherit(narrowed), scope)
  }

  // Unassign, then assign; when the assign fails, the previous binding is bound again.
  function Rebind(w: World, s: Subject, role: Id, resource: Option<Id>, narrowed: bool, existing: Assignment)
    : (World, Option<Failure>)
  {
    var (w1, removed) := Send(w, Unassign(s, role, existing.resource));
    if !removed.Accepted? then (w1, Some(FailureOf(removed)))
    else
      var (w2, bound) := Send(w1, AssignRequest(s, role, resource, narrowed, existing.scope));
      if bound.Accepted? then (w2, None)
      else
        var (w3, restored) := Send(w2, AssignRequest(s, role, existing.resource, existing.Narrowed(), existing.scope));
        (w3, Some(RebindFailure(bound, role, existing.resource, restored.Accepted?,
                                if restored.Accepted? then None else Some(restored))))
  }

  // One declared binding against the bindings the subject held when reconciling began.
  function ReconcileOne(m: Manifest, resolved: ResolvedIds, w: World, s: Subject,
                        current: map<string, Assignment>, b: RoleBinding): (World, Option<Failure>)
  {
    if (Role, b.role) !in resolved then (w, Some(Unresolved(Role, b.role)))
    else
      var roleId := resolved[(Role, b.role)];
      match ResolveResource(resolved, b)
      case Err(f) => (w, Some(f))
      case Ok(resource) =>
        var role := FindKeyOfKind(m, b.role, Role);
        if role.None? || role.value.name !in current then
          var (w', r) := Send(w, AssignRequest(s, roleId, resource, b.Narrowed(), None));
          (w', if r.Accepted? then None else Some(FailureOf(r)))
        else if Satisfied(current[role.value.name], resource, b.Narrowed()) then (w, None)
        else Rebind(w, s, roleId, resource, b.Narrowed(), current[role.value.name])
  }

  function Reconcile(m: Manifest, resolved: ResolvedIds, w: World, s: Subject,
                     current: map<string, Assignment>, bs: seq<RoleBinding>): (World, Option<Failure>)
    decreases |bs|
  {
    if bs == [] then (w, None)
    else
      var (w', f) := ReconcileOne(m, resolved, w, s, current, bs[0]);
      if f.Some? then (w', f) else Reconcile(m, resolved, w', s, current, bs[1..])
  }

  // ---- one planned change ----

  datatype Run = Run(world: World, resolved: ResolvedIds, versions: SegmentVersions)

  datatype Outcome = Outcome(run: Run, change: PlannedChange, failure: Option<Failure>)

  function DeclaredMetadata(e: Entity): Option<Json>
  {
    if e.metadata.Some? then e.metadata.value.parsed else None
  }

  function ParentId(m: Manifest, resolved: ResolvedIds, e: Entity): Result<Option<Id>, Failure>
  {
    if !e.kind.Resource? || e.dependsOn.None? || FindKeyOfKind(m, e.dependsOn.value, Resource).None? then Ok(None)
    else if (Resource, e.dependsOn.value) in resolved then Ok(Some(resolved[(Resource, e.dependsOn.value)]))
    else Err(Unresolved(Resource, e.dependsOn.value))
  }

  function CreateBody(e: Entity, parent: Option<Id>): Request
  {
    match e.kind
    case Resource => CreateRow(Resource, e.name, "", e.resourceType, false, parent, DeclaredMetadata(e))
    case Permission => CreateRow(Permission, e.action, e.description, "", false, None, None)
    case Role => CreateRow(Role, e.name, e.description, "", e.isGlobal, None, None)
    case _ => CreateRow(e.kind, e.name, e.description, "", false, None, None)
  }

  // None when an Update has nothing of its own to send: a subject whose manifest states no
  // description is updated for its role bindings alone.
  function UpdateBody(e: Entity, id: Id, parent: Option<Id>): Option<Request>
  {
    if e.kind.Resource? then
      Some(UpdateRow(Resource, id, Some(e.name), None, parent, DeclaredMetadata(e)))
    else if IsSubject(e.kind) && e.description == "" then None
    else Some(UpdateRow(e.kind, id, None, Some(e.description), None, None))
  }

  // The write of the entity's own row, and the id it answers with.
  function WriteRow(w: World, e: Entity, c: PlannedChange, parent: Option<Id>): (World, Result<Id, Failure>)
  {
    var id := c.id.GetOr(0);
    var body := if c.action.Create? then Some(CreateBody(e, parent)) else UpdateBody(e, id, parent);
    if body.None? then (w, Ok(id))
    else
      var (w', r) := Send(w, body.value);
      (w', if r.Accepted? then Ok(r.id) else Err(FailureOf(r)))
  }

  // The bindings a new subject holds are none; an existing one's are read afresh.
  function CurrentBindings(w: World, s: Subject, create: bool): (World, Result<map<string, Assignment>, Failure>)
  {
    if create then (w, Ok(map[]))
    else
      var (w', r) := Send(w, ListRoles(s));
      (w', if r.Accepted? then Ok(HeldRoles(w'.tenant, s)) else Err(FailureOf(r)))
  }

  function PerformBindings(m: Manifest, resolved: ResolvedIds, w: World, e: Entity, id: Id, create: bool)
    : (World, Option<Failure>)
  {
    if !IsSubject(e.kind) || e.roles == [] then (w, None)
    else
      var s := Subject(e.kind, id);
      var (w', current) := CurrentBindings(w, s, create);
      if current.Err? then (w', Some(current.error))
      else Reconcile(m, resolved, w', s, current.value, e.roles)
  }

  function PerformNamed(m: Manifest, c: PlannedChange, run: Run): Outcome
  {
    var e := c.entity;
    var parent := ParentId(m, run.resolved, e);
    if parent.Err? then Outcome(run, c, Some(parent.error))
    else
      var (w1, written) := WriteRow(run.world, e, c, parent.value);
      if written.Err? then Outcome(run.(world := w1), c, Some(written.error))
      else
        var resolved := run.resolved[(e.kind, e.key) := written.value];
        var (w2, f) := PerformBindings(m, resolved, w1, e, written.value, c.action.Create?);
        Outcome(Run(w2, resolved, run.versions), c.(id := Some(written.value)), f)
  }

  function Unnest<T>(n: Nullable<T>): Option<T> { if n.Some? then n.value else None }

  function SegmentCreateBody(spec: SegmentSpec): Request
  {
    CreateSegment(spec.site, spec.kind, spec.name, spec.vlan, Unnest(spec.rank), spec.filterIds, spec.enabled)
  }

  // Every stated member replaces the read's; every unstated one is carried from the read.
  function SegmentReplaceBody(spec: SegmentSpec, id: Id, read: SegmentRow): Request
  {
    ReplaceSegment(id, read.version, spec.vlan, spec.filterIds.GetOr(read.filterIds),
                   spec.enabled.GetOr(read.enabled), spec.rank.GetOr(read.rank))
  }

  function ProfileCreateInput(spec: ProfileSpec): ProfileInput
  {
    ProfileInput(None, spec.sessionTimeout, spec.termination, Unnest(spec.idle), Unnest(spec.filterId),
                 Unnest(spec.serviceType))
  }

  function ProfileReplaceInput(spec: ProfileSpec, read: ProfileRow): ProfileInput
  {
    ProfileInput(Some(read.dictionary), spec.sessionTimeout, Some(spec.termination.GetOr(read.termination)),
                 spec.idle.GetOr(read.idle), spec.filterId.GetOr(read.filterId),
                 spec.serviceType.GetOr(read.serviceType))
  }

  // A body with an enumeration value this SDK does not know is refused before any request.
  predicate Unsendable(input: ProfileInput)
  {
    input.termination == Some(TerminationUnknown) || input.serviceType == Some(ServiceTypeUnknown)
  }

  function PerformPolicy(c: PlannedChange, run: Run): Outcome
    requires c.entity.policyCap.Some? && c.readPolicy.Some?
  {
    var (w, r) := Send(run.world, ReplacePolicy(c.entity.policyCap.value, c.readPolicy.value.version));
    Outcome(run.(world := w), c, if r.Accepted? then None else Some(FailureOf(r)))
  }

  function PerformSegment(c: PlannedChange, run: Run): Outcome
    requires c.entity.segment.Some?
    requires !c.action.Create? ==> c.id.Some? && c.readSegment.Some?
  {
    var spec := c.entity.segment.value;
    if c.action.Create? && WireKind(spec.kind) == "" then Outcome(run, c, Some(LocalRefusal))
    else
      var body := if c.action.Create? then SegmentCreateBody(spec)
                  else SegmentReplaceBody(spec, c.id.value, c.readSegment.value);
      var (w, r) := Send(run.world, body);
      if !r.Accepted? then Outcome(run.(world := w), c, Some(FailureOf(r)))
      else Outcome(Run(w, run.resolved[(NetworkSegment, c.entity.key) := r.id],
                       run.versions[c.entity.key := r.version]),
                   c.(id := Some(r.id)), None)
  }

  function PerformProfile(c: PlannedChange, run: Run): Outcome
    requires c.entity.profile.Some?
    requires !c.action.Create? ==> c.readProfile.Some?
  {
    var spec := c.entity.profile.value;
    if (NetworkSegment, spec.segment) !in run.resolved
    then Outcome(run, c, Some(Unresolved(NetworkSegment, spec.segment)))
    else if spec.segment !in run.versions then Outcome(run, c, Some(NoVersion(spec.segment)))
    else
      var segmentId := run.resolved[(NetworkSegment, spec.segment)];
      var input := if c.action.Create? then ProfileCreateInput(spec)
                   else ProfileReplaceInput(spec, c.readProfile.value.profile);
      if Unsendable(input) then Outcome(run, c, Some(LocalRefusal))
      else
        var body := if c.action.Create? then CreateProfile(segmentId, run.versions[spec.segment], input)
                    else ReplaceProfile(segmentId, c.readProfile.value.profile.version,
                                        run.versions[spec.segment], input);
        var (w, r) := Send(run.world, body);
        if !r.Accepted? then Outcome(run.(world := w), c, Some(FailureOf(r)))
        else Outcome(run.(world := w), c.(id := Some(segmentId)), None)
  }

  // A change as plan makes it: what a write needs of the read is there.
  predicate Plannable(c: PlannedChange)
  {
    && HasSpec(c.entity)
    && (c.entity.kind.NetworkPolicy? ==> c.readPolicy.Some?)
    && (c.entity.kind.NetworkSegment? && !c.action.Create? ==> c.id.Some? && c.readSegment.Some?)
    && (c.entity.kind.NetworkProfile? && !c.action.Create? ==> c.readProfile.Some?)
  }

  function Perform(m: Manifest, c: PlannedChange, run: Run): Outcome
    requires Plannable(c)
  {
    match c.entity.kind
    case NetworkPolicy => PerformPolicy(c, run)
    case NetworkSegment => PerformSegment(c, run)
    case NetworkProfile => PerformProfile(c, run)
    case _ => PerformNamed(m, c, run)
  }

  // ---- apply ----

  // Seeded with every id the plan found, before any write.
  function SeedResolved(changes: seq<PlannedChange>): ResolvedIds
  {
    if changes == [] then map[]
    else
      var c := changes[|changes| - 1];
      var front := SeedResolved(changes[..|changes| - 1]);
      if c.id.Some? then front[(c.entity.kind, c.entity.key) := c.id.value] else front
  }

  function SeedVersions(changes: seq<PlannedChange>): SegmentVersions
  {
    if changes == [] then map[]
    else
      var c := changes[|changes| - 1];
      var front := SeedVersions(changes[..|changes| - 1]);
      if c.entity.kind.NetworkSegment? && c.readSegment.Some?
      then front[c.entity.key := c.readSegment.value.version] else front
  }

  datatype Report = Report(
    applied: seq<PlannedChange>,
    failed: Option<PlannedChange>,
    failure: Option<Failure>,
    remaining: seq<PlannedChange>)
  {
    predicate Complete() { failed.None? }
  }

  // Performs changes in order and stops at the first failure.
  function ApplySeq(m: Manifest, changes: seq<PlannedChange>, run: Run): (Run, Report)
    requires forall c :: c in changes ==> Plannable(c)
  {
    if changes == [] then (run, Report([], None, None, []))
    else
      var o := Perform(m, changes[0], run);
      if o.failure.Some? then (o.run, Report([], Some(o.change), o.failure, changes[1..]))
      else
        var (run', rest) := ApplySeq(m, changes[1..], o.run);
        (run', rest.(applied := [o.change] + rest.applied))
  }

  // ManifestApi::apply after its own plan succeeded.
  function ApplyPlan(m: Manifest, changes: seq<PlannedChange>, w: World): (Run, Report)
    requires forall c :: c in changes ==> Plannable(c)
  {
    PendingElements(changes);
    ApplySeq(m, Pending(changes), Run(w, SeedResolved(changes), SeedVersions(changes)))
  }

  lemma {:induction false} PendingElements(changes: seq<PlannedChange>)
    ensures forall c :: c in Pending(changes) <==> c in changes && !c.action.Unchanged?
  {
    if changes != [] {
      PendingElements(changes[1..]);
    }
  }

  lemma PlanPlannable(m: Manifest, t: TenantState)
    requires Plan(m, t).Ok?
    ensures forall c :: c in Plan(m, t).value ==> Plannable(c)
  {
    OrderedSpecs(m);
  }

  // The whole call: plan against the tenant as it is now, then perform.
  ghost function Apply(m: Manifest, w: World): Result<(Run, Report), PlanError>
  {
    var p := Plan(m, w.tenant);
    if p.Err? then Err(p.error)
    else
      PlanPlannable(m, w.tenant);
      Ok(ApplyPlan(m, p.value, w))
  }
}
