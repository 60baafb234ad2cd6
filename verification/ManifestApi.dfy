// The loops of ManifestApi against a server whose state the calls change in place. Each method
// computes what the function of the same name in ManifestPlan and ManifestApply says.
module ManifestApi {
  import opened Prelude
  import opened ManifestTypes
  import opened ManifestOrder
  import opened ManifestValidate
  import opened Tenant
  import opened ManifestPlan
  import opened ManifestApply

  // ---- page walks ----

  // One page of a list call: the rows from `offset`, at most `limit`, and the server's total.
  datatype Page<T> = Page(items: seq<T>, total: nat)

  function ListPage<T>(rows: seq<T>, offset: nat, limit: nat): Page<T>
  {
    var from := if offset <= |rows| then offset else |rows|;
    var to := if from + limit <= |rows| then from + limit else |rows|;
    Page(rows[from..to], |rows|)
  }

  // walk() reads every row once, in order, and stops.
  method WalkPages<T>(rows: seq<T>) returns (out: seq<T>)
    ensures out == rows
  {
    out := [];
    var offset := 0;
    var limit := SCAN_LIMIT;
    while true
      invariant |out| <= |rows| && out == rows[..|out|]
      invariant offset == |out|
      decreases |rows| - |out|
    {
      var page := ListPage(rows, offset, limit);
      if page.items == [] { break; }
      out := out + page.items;
      if |out| >= page.total { break; }
      offset := offset + limit;
    }
  }

  // ---- the server as the client holds it ----

  class Server {
    var world: World

    constructor (w: World)
      ensures world == w
    {
      world := w;
    }

    // One management call: it may fail, be refused, or change the tenant.
    method Call(req: Request) returns (r: Reply)
      modifies this
      ensures (world, r) == Send(old(world), req)
    {
      var (w, reply) := Send(world, req);
      world := w;
      r := reply;
    }
  }

  // ---- plan ----

  method BindingsDrift(m: Manifest, server: Server, s: Subject, bs: seq<RoleBinding>) returns (drifted: bool)
    ensures drifted <==> !BindingsHeld(m, server.world.tenant, s, bs)
  {
    for n := 0 to |bs|
      invariant forall i :: 0 <= i < n ==> BindingHeld(m, server.world.tenant, s, bs[i])
    {
      if !BindingHeld(m, server.world.tenant, s, bs[n]) { return true; }
    }
    return false;
  }

  // Where a cached page has the row of a name.
  function LocateIn(rows: seq<Row>, kind: Kind, name: string): Option<nat>
  {
    var i := if kind.ServiceAccount? then FirstNamed(rows, name) else LastNamed(rows, name);
    if i < |rows| then Some(i) else None
  }

  method PlanNamedEntity(m: Manifest, server: Server, e: Entity, rows: seq<Row>)
    returns (r: Result<PlannedChange, PlanError>)
    requires rows == Visible(Table(server.world.tenant, e.kind))
    ensures r == PlanNamed(m, server.world.tenant, e)
  {
    var at := LocateIn(rows, e.kind, MatchName(e));
    if at.None? { return Ok(Change(e, Create, None)); }
    if e.kind.ServiceAccount? && FirstNamed(rows, e.name) < LastNamed(rows, e.name) < |rows| {
      return Err(AmbiguousAccount(e.name));
    }
    var row := rows[at.value];
    var drifted := !FieldsMatch(e, row);
    if IsSubject(e.kind) && e.roles != [] && !drifted {
      drifted := BindingsDrift(m, server, Subject(e.kind, row.id), e.roles);
    }
    return Ok(Change(e, if drifted then Update else Unchanged, Some(row.id)));
  }

  // ---- the network part of the plan ----

  // The profiles as a list call shows them: effective values, and whether the cap lowered them.
  function ShownProfiles(t: TenantState): (shown: seq<ProfileRead>)
    ensures |shown| == |t.profiles|
  {
    seq(|t.profiles|, j requires 0 <= j < |t.profiles| =>
      ProfileRead(Effective(t.profiles[j], t.policy.cap), Clamped(t.profiles[j], t.policy.cap)))
  }

  // Everything plan reads of the network namespace, each list once and only when it is needed.
  class NetworkRead {
    var policy: Option<PolicyRow>
    var segments: Option<seq<SegmentRow>>
    var profiles: Option<seq<ProfileRead>>

    ghost predicate ReadOf(t: TenantState)
      reads this
    {
      && policy in {None, Some(t.policy)}
      && segments in {None, Some(t.segments)}
      && profiles in {None, Some(ShownProfiles(t))}
    }

    constructor ()
      ensures policy.None? && segments.None? && profiles.None?
    {
      policy, segments, profiles := None, None, None;
    }

    method ReadPolicy(server: Server) returns (have: PolicyRow)
      requires ReadOf(server.world.tenant)
      modifies this
      ensures ReadOf(server.world.tenant) && have == server.world.tenant.policy
    {
      if policy.None? { policy := Some(server.world.tenant.policy); }
      return policy.value;
    }

    method ReadSegments(server: Server) returns (all: seq<SegmentRow>)
      requires ReadOf(server.world.tenant)
      modifies this
      ensures ReadOf(server.world.tenant) && all == server.world.tenant.segments
    {
      if segments.None? {
        var walked := WalkPages(server.world.tenant.segments);
        segments := Some(walked);
      }
      return segments.value;
    }

    method ReadProfiles(server: Server) returns (all: seq<ProfileRead>)
      requires ReadOf(server.world.tenant)
      modifies this
      ensures ReadOf(server.world.tenant) && all == ShownProfiles(server.world.tenant)
    {
      if profiles.None? {
        var walked := WalkPages(ShownProfiles(server.world.tenant));
        profiles := Some(walked);
      }
      return profiles.value;
    }
  }

  method FindReadSegment(all: seq<SegmentRow>, spec: SegmentSpec) returns (i: nat)
    ensures i == FindSegment(all, spec)
  {
    i := 0;
    while i < |all|
      invariant i <= |all| && FindSegment(all, spec) == i + FindSegment(all[i..], spec)
    {
      assert all[i..][1..] == all[i + 1..];
      if SegmentMatches(all[i], spec) { return; }
      i := i + 1;
    }
  }

  method FindReadProfile(t: TenantState, all: seq<ProfileRead>, segmentId: Id) returns (j: nat)
    requires all == ShownProfiles(t)
    ensures j == ProfileOf(t.profiles, segmentId)
  {
    j := 0;
    while j < |all|
      invariant j <= |all| && ProfileOf(t.profiles, segmentId) == j + ProfileOf(t.profiles[j..], segmentId)
    {
      assert t.profiles[j..][1..] == t.profiles[j + 1..];
      if all[j].profile.segmentId == segmentId { return; }
      j := j + 1;
    }
  }

  method PlanNetworkEntity(m: Manifest, server: Server, e: Entity, read: NetworkRead)
    returns (r: Result<PlannedChange, PlanError>)
    requires HasSpec(e) && IsNetwork(e.kind) && read.ReadOf(server.world.tenant)
    modifies read
    ensures read.ReadOf(server.world.tenant)
    ensures r == PlanNetwork(m, server.world.tenant, e)
  {
    match e.kind
    case NetworkPolicy =>
      var have := read.ReadPolicy(server);
      var action := if e.policyCap.value != have.cap then Update else Unchanged;
      return Ok(Change(e, action, None).(readPolicy := Some(have)));
    case NetworkSegment =>
      var all := read.ReadSegments(server);
      var i := FindReadSegment(all, e.segment.value);
      if i == |all| { return Ok(Change(e, Create, None)); }
      var action := if SegmentDrifted(e.segment.value, all[i]) then Update else Unchanged;
      return Ok(Change(e, action, Some(all[i].id)).(readSegment := Some(all[i])));
    case NetworkProfile =>
      var spec := e.profile.value;
      var segments := read.ReadSegments(server);
      var profiles := read.ReadProfiles(server);
      var segmentSpec := FindKeyOfKind(m, spec.segment, NetworkSegment);
      if segmentSpec.None? || segmentSpec.value.segment.None? { return Ok(Change(e, Create, None)); }
      var i := FindReadSegment(segments, segmentSpec.value.segment.value);
      if i == |segments| { return Ok(Change(e, Create, None)); }
      var j := FindReadProfile(server.world.tenant, profiles, segments[i].id);
      if j == |profiles| { return Ok(Change(e, Create, None)); }
      var have := profiles[j];
      var drifted := ProfileDrifted(spec, have.profile);
      if drifted && CarriesUnknown(spec, have.profile) { return Err(UnknownCarried(spec.segment)); }
      return Ok(Change(e, if drifted then Update else Unchanged, Some(segments[i].id)).(readProfile := Some(have)));
  }

  // What the list calls made so far returned, by kind.
  ghost predicate CacheOf(cache: map<Kind, seq<Row>>, t: TenantState)
  {
    forall k :: k in cache ==> cache[k] == Visible(Table(t, k))
  }

  // One turn of the loop: the entity against the reads, which are made when they are first needed.
  method PlanOne(m: Manifest, server: Server, e: Entity, cache: map<Kind, seq<Row>>, read: NetworkRead)
    returns (planned: Result<PlannedChange, PlanError>, cache': map<Kind, seq<Row>>)
    requires HasSpec(e) && CacheOf(cache, server.world.tenant) && read.ReadOf(server.world.tenant)
    modifies read
    ensures CacheOf(cache', server.world.tenant) && read.ReadOf(server.world.tenant)
    ensures planned == PlanEntity(m, server.world.tenant, e)
  {
    cache' := cache;
    if IsNetwork(e.kind) {
      planned := PlanNetworkEntity(m, server, e, read);
    } else {
      if e.kind !in cache {
        cache' := cache[e.kind := Visible(Table(server.world.tenant, e.kind))];
      }
      planned := PlanNamedEntity(m, server, e, cache'[e.kind]);
    }
  }

  // One read per kind, and no write.
  method PlanManifest(m: Manifest, server: Server) returns (r: Result<seq<PlannedChange>, PlanError>)
    ensures r == Plan(m, server.world.tenant)
  {
    var err := Validate(m);
    if err.Some? { return Err(Incoherent); }
    var es := Ordered(m);
    OrderedSpecs(m);
    ghost var t := server.world.tenant;
    var cache: map<Kind, seq<Row>> := map[];
    var read := new NetworkRead();
    var changes: seq<PlannedChange> := [];
    for n := 0 to |es|
      invariant CacheOf(cache, t) && read.ReadOf(t)
      invariant PlanSeq(m, t, es, n) == Ok(changes)
    {
      var planned;
      planned, cache := PlanOne(m, server, es[n], cache, read);
      assert PlanSeq(m, t, es, n + 1) == if planned.Err? then Err(planned.error) else Ok(changes + [planned.value]);
      if planned.Err? {
        PlanSeqStops(m, t, es, n + 1, |es|);
        return Err(planned.error);
      }
      changes := changes + [planned.value];
    }
    return Ok(changes);
  }

  // ---- apply ----

  method RebindRole(server: Server, s: Subject, role: Id, resource: Option<Id>, narrowed: bool, existing: Assignment)
    returns (f: Option<Failure>)
    modifies server
    ensures (server.world, f) == Rebind(old(server.world), s, role, resource, narrowed, existing)
  {
    var removed := server.Call(Unassign(s, role, existing.resource));
    if !removed.Accepted? { return Some(FailureOf(removed)); }
    var original := server.Call(AssignRequest(s, role, resource, narrowed, existing.scope));
    if original.Accepted? { return None; }
    var restored := server.Call(AssignRequest(s, role, existing.resource, existing.Narrowed(), existing.scope));
    return Some(RebindFailure(original, role, existing.resource, restored.Accepted?,
                              if restored.Accepted? then None else Some(restored)));
  }

  method ReconcileRoleBindings(m: Manifest, server: Server, resolved: ResolvedIds, s: Subject,
                               current: map<string, Assignment>, bs: seq<RoleBinding>)
    returns (f: Option<Failure>)
    modifies server
    ensures (server.world, f) == Reconcile(m, resolved, old(server.world), s, current, bs)
  {
    f := None;
    var n := 0;
    while n < |bs|
      invariant n <= |bs|
      invariant Reconcile(m, resolved, server.world, s, current, bs[n..])
                == Reconcile(m, resolved, old(server.world), s, current, bs)
    {
      var b := bs[n];
      assert bs[n..][0] == b && bs[n..][1..] == bs[n + 1..];
      if (Role, b.role) !in resolved { return Some(Unresolved(Role, b.role)); }
      var roleId := resolved[(Role, b.role)];
      var resource := ResolveResource(resolved, b);
      if resource.Err? { return Some(resource.error); }
      var role := FindKeyOfKind(m, b.role, Role);
      if role.None? || role.value.name !in current {
        var r := server.Call(AssignRequest(s, roleId, resource.value, b.Narrowed(), None));
        if !r.Accepted? { return Some(FailureOf(r)); }
      } else if !Satisfied(current[role.value.name], resource.value, b.Narrowed()) {
        f := RebindRole(server, s, roleId, resource.value, b.Narrowed(), current[role.value.name]);
        if f.Some? { return; }
      }
      n := n + 1;
    }
    f := None;
  }

  method PerformNamedChange(m: Manifest, server: Server, c: PlannedChange, resolved: ResolvedIds, ghost versions: SegmentVersions)
    returns (resolved': ResolvedIds, c': PlannedChange, f: Option<Failure>)
    modifies server
    ensures Outcome(Run(server.world, resolved', versions), c', f)
            == PerformNamed(m, c, Run(old(server.world), resolved, versions))
  {
    var e := c.entity;
    resolved', c' := resolved, c;
    var parent := ParentId(m, resolved, e);
    if parent.Err? { return resolved, c, Some(parent.error); }
    var id := c.id.GetOr(0);
    var body := if c.action.Create? then Some(CreateBody(e, parent.value)) else UpdateBody(e, id, parent.value);
    if body.Some? {
      var r := server.Call(body.value);
      if !r.Accepted? { return resolved, c, Some(FailureOf(r)); }
      id := r.id;
    }
    c' := c.(id := Some(id));
    resolved' := resolved[(e.kind, e.key) := id];
    if !IsSubject(e.kind) || e.roles == [] { return resolved', c', None; }
    var s := Subject(e.kind, id);
    var current := map[];
    if !c.action.Create? {
      var listed := server.Call(ListRoles(s));
      if !listed.Accepted? { return resolved', c', Some(FailureOf(listed)); }
      current := HeldRoles(server.world.tenant, s);
    }
    f := ReconcileRoleBindings(m, server, resolved', s, current, e.roles);
  }

  method PerformNetworkChange(m: Manifest, server: Server, c: PlannedChange, resolved: ResolvedIds, versions: SegmentVersions)
    returns (resolved': ResolvedIds, versions': SegmentVersions, c': PlannedChange, f: Option<Failure>)
    requires Plannable(c) && IsNetwork(c.entity.kind)
    modifies server
    ensures Outcome(Run(server.world, resolved', versions'), c', f)
            == Perform(m, c, Run(old(server.world), resolved, versions))
  {
    var e := c.entity;
    resolved', versions', c', f := resolved, versions, c, None;
    match e.kind
    case NetworkPolicy =>
      var r := server.Call(ReplacePolicy(e.policyCap.value, c.readPolicy.value.version));
      if !r.Accepted? { f := Some(FailureOf(r)); }
    case NetworkSegment =>
      var spec := e.segment.value;
      if c.action.Create? && WireKind(spec.kind) == "" { return resolved, versions, c, Some(LocalRefusal); }
      var r := server.Call(if c.action.Create? then SegmentCreateBody(spec)
                           else SegmentReplaceBody(spec, c.id.value, c.readSegment.value));
      if !r.Accepted? { return resolved, versions, c, Some(FailureOf(r)); }
      c' := c.(id := Some(r.id));
      resolved' := resolved[(NetworkSegment, e.key) := r.id];
      versions' := versions[e.key := r.version];
    case NetworkProfile =>
      var spec := e.profile.value;
      if (NetworkSegment, spec.segment) !in resolved {
        return resolved, versions, c, Some(Unresolved(NetworkSegment, spec.segment));
      }
      if spec.segment !in versions { return resolved, versions, c, Some(NoVersion(spec.segment)); }
      var segmentId := resolved[(NetworkSegment, spec.segment)];
      var input := if c.action.Create? then ProfileCreateInput(spec)
                   else ProfileReplaceInput(spec, c.readProfile.value.profile);
      if Unsendable(input) { return resolved, versions, c, Some(LocalRefusal); }
      var r := server.Call(if c.action.Create? then CreateProfile(segmentId, versions[spec.segment], input)
                           else ReplaceProfile(segmentId, c.readProfile.value.profile.version,
                                               versions[spec.segment], input));
      if !r.Accepted? { return resolved, versions, c, Some(FailureOf(r)); }
      c' := c.(id := Some(segmentId));
  }

  // The result of a run, with what was applied before it.
  ghost function AppliedBefore(before: seq<PlannedChange>, result: (Run, Report)): (Run, Report)
  {
    (result.0, result.1.(applied := before + result.1.applied))
  }

  // From change n on, with what was applied before it, the run comes to `whole`.
  ghost predicate ComesTo(m: Manifest, pending: seq<PlannedChange>, n: nat, applied: seq<PlannedChange>, here: Run,
                          whole: (Run, Report))
    requires forall c :: c in pending ==> Plannable(c)
  {
    n <= |pending| && AppliedBefore(applied, ApplySeq(m, pending[n..], here)) == whole
  }

  lemma ComesToAll(m: Manifest, pending: seq<PlannedChange>, start: Run)
    requires forall c :: c in pending ==> Plannable(c)
    ensures ComesTo(m, pending, 0, [], start, ApplySeq(m, pending, start))
  {
    assert pending[0..] == pending;
    assert [] + ApplySeq(m, pending, start).1.applied == ApplySeq(m, pending, start).1.applied;
  }

  lemma ComesToNext(m: Manifest, pending: seq<PlannedChange>, n: nat, applied: seq<PlannedChange>, here: Run,
                    o: Outcome, whole: (Run, Report))
    requires forall c :: c in pending ==> Plannable(c)
    requires ComesTo(m, pending, n, applied, here, whole) && n < |pending| && o == Perform(m, pending[n], here)
    ensures o.failure.Some? ==> whole == (o.run, Report(applied, Some(o.change), o.failure, pending[n + 1..]))
    ensures o.failure.None? ==> ComesTo(m, pending, n + 1, applied + [o.change], o.run, whole)
  {
    assert pending[n..][0] == pending[n] && pending[n..][1..] == pending[n + 1..];
    if o.failure.None? {
      var rest := ApplySeq(m, pending[n + 1..], o.run);
      assert applied + ([o.change] + rest.1.applied) == applied + [o.change] + rest.1.applied;
    } else {
      assert applied + [] == applied;
    }
  }

  lemma ComesToEnd(m: Manifest, pending: seq<PlannedChange>, applied: seq<PlannedChange>, here: Run, whole: (Run, Report))
    requires forall c :: c in pending ==> Plannable(c)
    requires ComesTo(m, pending, |pending|, applied, here, whole)
    ensures whole == (here, Report(applied, None, None, []))
  {
    assert pending[|pending|..] == [] && applied + [] == applied;
  }

  method PerformChange(m: Manifest, server: Server, c: PlannedChange, resolved: ResolvedIds, versions: SegmentVersions)
    returns (resolved': ResolvedIds, versions': SegmentVersions, c': PlannedChange, f: Option<Failure>)
    requires Plannable(c)
    modifies server
    ensures Outcome(Run(server.world, resolved', versions'), c', f)
            == Perform(m, c, Run(old(server.world), resolved, versions))
  {
    if IsNetwork(c.entity.kind) {
      resolved', versions', c', f := PerformNetworkChange(m, server, c, resolved, versions);
    } else {
      versions' := versions;
      resolved', c', f := PerformNamedChange(m, server, c, resolved, versions);
    }
  }

  // The apply loop: change by change, threading ids and versions, until the first failure.
  method RunChanges(m: Manifest, server: Server, pending: seq<PlannedChange>, seeds: ResolvedIds, seedVersions: SegmentVersions)
    returns (report: Report)
    requires forall c :: c in pending ==> Plannable(c)
    modifies server
    ensures var (run, r) := ApplySeq(m, pending, Run(old(server.world), seeds, seedVersions));
            server.world == run.world && report == r
  {
    var resolved, versions := seeds, seedVersions;
    var applied: seq<PlannedChange> := [];
    ghost var whole := ApplySeq(m, pending, Run(server.world, seeds, seedVersions));
    ComesToAll(m, pending, Run(server.world, seeds, seedVersions));
    var n := 0;
    while n < |pending|
      invariant n <= |pending| && ComesTo(m, pending, n, applied, Run(server.world, resolved, versions), whole)
    {
      ghost var here := Run(server.world, resolved, versions);
      var c', f;
      resolved, versions, c', f := PerformChange(m, server, pending[n], resolved, versions);
      ComesToNext(m, pending, n, applied, here, Outcome(Run(server.world, resolved, versions), c', f), whole);
      if f.Some? {
        return Report(applied, Some(c'), f, pending[n + 1..]);
      }
      applied := applied + [c'];
      n := n + 1;
    }
    ComesToEnd(m, pending, applied, Run(server.world, resolved, versions), whole);
    report := Report(applied, None, None, []);
  }

  method ApplyManifest(m: Manifest, server: Server) returns (r: Result<Report, PlanError>)
    modifies server
    ensures match Apply(m, old(server.world))
            case Err(e) => r == Err(e) && server.world == old(server.world)
            case Ok(p) => r == Ok(p.1) && server.world == p.0.world
  {
    var planned := PlanManifest(m, server);
    if planned.Err? { return Err(planned.error); }
    var changes := planned.value;
    PlanPlannable(m, server.world.tenant);
    PendingElements(changes);
    var report := RunChanges(m, server, Pending(changes), SeedResolved(changes), SeedVersions(changes));
    return Ok(report);
  }
}
