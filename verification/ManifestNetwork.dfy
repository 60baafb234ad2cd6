// What applying a manifest does to the network namespace: each write touches its own row only,
// and carries the versions the server holds.
module ManifestNetwork {
  import opened Prelude
  import opened ManifestTypes
  import opened Tenant
  import opened ManifestPlan
  import opened ManifestApply

  ghost predicate SegmentsWf(segments: seq<SegmentRow>, nextId: Id)
  {
    && (forall i :: 0 <= i < |segments| ==> segments[i].id < nextId)
    && (forall i, j :: 0 <= i < j < |segments| ==> segments[i].id != segments[j].id)
  }

  ghost predicate ProfilesWf(profiles: seq<ProfileRow>, nextId: Id)
  {
    && (forall i :: 0 <= i < |profiles| ==> profiles[i].segmentId < nextId)
    && (forall i, j :: 0 <= i < j < |profiles| ==> profiles[i].segmentId != profiles[j].segmentId)
  }

  ghost predicate NetworkWf(t: TenantState)
  {
    SegmentsWf(t.segments, t.nextId) && ProfilesWf(t.profiles, t.nextId)
  }

  ghost predicate SameNetwork(t: TenantState, t': TenantState)
  {
    && t'.policy == t.policy && t'.segments == t.segments && t'.profiles == t.profiles
    && t.nextId <= t'.nextId
  }

  // ---- the rows a declaration is matched to ----

  function SegmentRowOf(t: TenantState, e: Entity): Option<SegmentRow>
    requires e.segment.Some?
  {
    var i := FindSegment(t.segments, e.segment.value);
    if i < |t.segments| then Some(t.segments[i]) else None
  }

  function ProfileRowOf(m: Manifest, t: TenantState, e: Entity): Option<ProfileRow>
    requires e.profile.Some?
  {
    var j := ProfileIndex(m, t, e);
    if j < |t.profiles| then Some(t.profiles[j]) else None
  }

  // The segment declaration a profile declaration belongs to.
  function OwnSegment(m: Manifest, e: Entity): (r: Entity)
    requires e.profile.Some? && FindKeyOfKind(m, e.profile.value.segment, NetworkSegment).Some?
  {
    FindKeyOfKind(m, e.profile.value.segment, NetworkSegment).value
  }

  ghost predicate Declared(m: Manifest, e: Entity)
  {
    e in m && Coherent(m) && EntityOk(m, e) && HasSpec(e)
  }

  lemma DeclaredIn(m: Manifest, e: Entity)
    requires Coherent(m) && e in m
    ensures Declared(m, e)
    ensures e.kind.NetworkProfile? ==> Declared(m, OwnSegment(m, e)) && OwnSegment(m, e).kind.NetworkSegment?
  {
    assert EntityOk(m, e);
    if e.kind.NetworkProfile? {
      assert EntityOk(m, OwnSegment(m, e));
    }
  }

  // Two declared segments never match one row.
  lemma SegmentsApart(m: Manifest, a: Entity, b: Entity, row: SegmentRow)
    requires Declared(m, a) && Declared(m, b) && a != b
    requires a.kind.NetworkSegment? && b.kind.NetworkSegment?
    requires SegmentMatches(row, a.segment.value)
    ensures !SegmentMatches(row, b.segment.value)
  {
    CoherentPair(m, a, b);
  }

  lemma SegmentById(t: TenantState, i: nat)
    requires NetworkWf(t) && i < |t.segments|
    ensures SegmentWithId(t.segments, t.segments[i].id) == i
  {
  }

  // ---- one step of one entity ----

  ghost predicate SegmentStep(t: TenantState, t': TenantState, spec: SegmentSpec)
  {
    var i := FindSegment(t.segments, spec);
    || t'.segments == t.segments
    || (i == |t.segments| && |t'.segments| == i + 1 && t'.segments[..i] == t.segments
        && t'.segments[i].id == t.nextId && t'.nextId == t.nextId + 1
        && SegmentMatches(t'.segments[i], spec) && t'.segments[i].kind == spec.kind)
    || (i < |t.segments| && |t'.segments| == |t.segments|
        && t'.segments == t.segments[i := t'.segments[i]]
        && t'.segments[i].id == t.segments[i].id && t'.segments[i].kind == t.segments[i].kind
        && SegmentMatches(t'.segments[i], spec))
  }

  ghost predicate ProfileStep(m: Manifest, t: TenantState, t': TenantState, e: Entity)
    requires e.profile.Some?
  {
    var i := ProfileSegment(m, t, e);
    var j := ProfileIndex(m, t, e);
    || t'.profiles == t.profiles
    || (i < |t.segments| && j == |t.profiles| && |t'.profiles| == j + 1 && t'.profiles[..j] == t.profiles
        && t'.profiles[j].segmentId == t.segments[i].id)
    || (j < |t.profiles| && |t'.profiles| == |t.profiles|
        && t'.profiles == t.profiles[j := t'.profiles[j]]
        && t'.profiles[j].segmentId == t.profiles[j].segmentId)
  }

  ghost predicate SameTables(t: TenantState, t': TenantState)
  {
    && t'.resources == t.resources && t'.permissions == t.permissions && t'.roles == t.roles
    && t'.groups == t.groups && t'.accounts == t.accounts && t'.bindings == t.bindings
  }

  // What performing e may have changed of the network namespace.
  ghost predicate NetworkStep(m: Manifest, t: TenantState, t': TenantState, e: Entity)
    requires HasSpec(e)
  {
    && t.nextId <= t'.nextId
    && (IsNetwork(e.kind) ==> SameTables(t, t'))
    && (e.kind.NetworkPolicy? || t'.policy == t.policy)
    && (if e.kind.NetworkSegment? then SegmentStep(t, t', e.segment.value) else t'.segments == t.segments)
    && (if e.kind.NetworkProfile? then ProfileStep(m, t, t', e) else t'.profiles == t.profiles)
  }

  lemma SegmentStepWf(t: TenantState, t': TenantState, spec: SegmentSpec)
    requires SegmentsWf(t.segments, t.nextId) && SegmentStep(t, t', spec) && t.nextId <= t'.nextId
    ensures SegmentsWf(t'.segments, t'.nextId)
  {
    var i := FindSegment(t.segments, spec);
    if |t'.segments| == i + 1 && t'.segments[..i] == t.segments {
      assert forall k :: 0 <= k < i ==> t'.segments[k] == t.segments[k];
    } else {
      assert forall k :: 0 <= k < |t.segments| ==> t'.segments[k].id == t.segments[k].id;
    }
  }

  lemma ProfileStepWf(m: Manifest, t: TenantState, t': TenantState, e: Entity)
    requires HasSpec(e) && e.kind.NetworkProfile? && NetworkWf(t) && ProfileStep(m, t, t', e) && t.nextId <= t'.nextId
    ensures ProfilesWf(t'.profiles, t'.nextId)
  {
    var j := ProfileIndex(m, t, e);
    if |t'.profiles| == j + 1 && t'.profiles[..j] == t.profiles {
      assert forall k :: 0 <= k < j ==> t'.profiles[k] == t.profiles[k];
    } else {
      assert forall k :: 0 <= k < |t.profiles| ==> t'.profiles[k].segmentId == t.profiles[k].segmentId;
    }
  }

  lemma NetworkStepWf(m: Manifest, t: TenantState, t': TenantState, e: Entity)
    requires HasSpec(e) && NetworkWf(t) && NetworkStep(m, t, t', e)
    ensures NetworkWf(t')
  {
    if e.kind.NetworkProfile? {
      ProfileStepWf(m, t, t', e);
    } else {
      assert ProfilesWf(t'.profiles, t'.nextId);
    }
    if e.kind.NetworkSegment? {
      SegmentStepWf(t, t', e.segment.value);
    } else {
      assert SegmentsWf(t'.segments, t'.nextId);
    }
  }

  // Another entity's step leaves a declared segment's row alone.
  lemma SegmentFrame(m: Manifest, t: TenantState, t': TenantState, e: Entity, other: Entity)
    requires Declared(m, e) && Declared(m, other) && e != other && e.kind.NetworkSegment?
    requires NetworkStep(m, t, t', other)
    ensures SegmentRowOf(t', e) == SegmentRowOf(t, e)
  {
    if other.kind.NetworkSegment? && t'.segments != t.segments {
      var i := FindSegment(t.segments, other.segment.value);
      SegmentsApart(m, other, e, t'.segments[i]);
      if i == |t.segments| {
        assert forall k :: 0 <= k < i ==> t'.segments[k] == t'.segments[..i][k];
      } else {
        SegmentsApart(m, other, e, t.segments[i]);
        assert forall k :: 0 <= k < |t.segments| && k != i ==> t'.segments[k] == t.segments[k];
        assert FindSegment(t'.segments, e.segment.value) == FindSegment(t.segments, e.segment.value);
      }
    }
  }

  // A segment's own step keeps its identity, or gives it one no profile refers to yet.
  lemma OwnSegmentStep(m: Manifest, t: TenantState, t': TenantState, s: Entity)
    requires Declared(m, s) && s.kind.NetworkSegment? && NetworkStep(m, t, t', s)
    ensures SegmentRowOf(t, s).Some? ==>
              SegmentRowOf(t', s).Some? && SegmentRowOf(t', s).value.id == SegmentRowOf(t, s).value.id
    ensures SegmentRowOf(t, s).None? && SegmentRowOf(t', s).Some? ==> SegmentRowOf(t', s).value.id == t.nextId
  {
    var i := FindSegment(t.segments, s.segment.value);
    if t'.segments != t.segments {
      if i == |t.segments| {
        assert forall k :: 0 <= k < i ==> t'.segments[k] == t'.segments[..i][k];
      }
      assert FindSegment(t'.segments, s.segment.value) == i;
    }
  }

  lemma ProfileSegmentIsOwn(m: Manifest, t: TenantState, e: Entity)
    requires Declared(m, e) && e.kind.NetworkProfile?
    ensures OwnSegment(m, e).segment.Some?
    ensures ProfileSegment(m, t, e) == FindSegment(t.segments, OwnSegment(m, e).segment.value)
  {
    DeclaredIn(m, e);
  }

  // Two declared profiles belong to different segment rows.
  lemma ProfilesApart(m: Manifest, t: TenantState, a: Entity, b: Entity)
    requires Declared(m, a) && Declared(m, b) && a != b && a.kind.NetworkProfile? && b.kind.NetworkProfile?
    requires NetworkWf(t)
    requires ProfileSegment(m, t, a) < |t.segments| && ProfileSegment(m, t, b) < |t.segments|
    ensures t.segments[ProfileSegment(m, t, a)].id != t.segments[ProfileSegment(m, t, b)].id
  {
    CoherentPair(m, a, b);
    ProfileSegmentIsOwn(m, t, a);
    ProfileSegmentIsOwn(m, t, b);
    DeclaredIn(m, a);
    DeclaredIn(m, b);
    var i, j := ProfileSegment(m, t, a), ProfileSegment(m, t, b);
    SegmentsApart(m, OwnSegment(m, a), OwnSegment(m, b), t.segments[i]);
  }

  // Rows that agree on which are this segment's are searched alike.
  lemma ProfileOfAlike(rows: seq<ProfileRow>, rows': seq<ProfileRow>, id: Id)
    requires |rows| <= |rows'|
    requires forall k :: 0 <= k < |rows| ==> (rows'[k].segmentId == id <==> rows[k].segmentId == id)
    requires forall k :: |rows| <= k < |rows'| ==> rows'[k].segmentId != id
    ensures var j, j' := ProfileOf(rows, id), ProfileOf(rows', id);
            if j < |rows| then j' == j else j' == |rows'|
  {
    var j, j' := ProfileOf(rows, id), ProfileOf(rows', id);
    if j < |rows| {
      assert rows'[j].segmentId == id;
      assert j' <= j;
      assert rows'[j'].segmentId == id;
    }
  }

  lemma ProfileOfStep(m: Manifest, t: TenantState, t': TenantState, other: Entity, id: Id)
    requires HasSpec(other) && other.kind.NetworkProfile? && ProfileStep(m, t, t', other)
    requires var i := ProfileSegment(m, t, other); i < |t.segments| ==> t.segments[i].id != id
    ensures var j, j' := ProfileOf(t.profiles, id), ProfileOf(t'.profiles, id);
            if j < |t.profiles| then j' == j && t'.profiles[j] == t.profiles[j] else j' == |t'.profiles|
  {
    var rows, rows', at := t.profiles, t'.profiles, ProfileIndex(m, t, other);
    if rows' != rows {
      if at == |rows| {
        forall k | 0 <= k < |rows| ensures rows'[k] == rows[k] {
          assert rows'[k] == rows'[..at][k];
        }
      } else {
        assert rows[at].segmentId != id;
        assert forall k :: 0 <= k < |rows| && k != at ==> rows'[k] == rows[k];
      }
    }
    ProfileOfAlike(rows, rows', id);
  }

  // Another entity's step leaves a declared profile's row alone, its segment's own write included.
  lemma ProfileFrame(m: Manifest, t: TenantState, t': TenantState, e: Entity, other: Entity)
    requires Declared(m, e) && Declared(m, other) && e != other && e.kind.NetworkProfile?
    requires NetworkWf(t) && NetworkStep(m, t, t', other)
    ensures ProfileRowOf(m, t', e) == ProfileRowOf(m, t, e)
  {
    DeclaredIn(m, e);
    var s := OwnSegment(m, e);
    ProfileSegmentIsOwn(m, t, e);
    ProfileSegmentIsOwn(m, t', e);
    if other == s {
      OwnSegmentStep(m, t, t', s);
    } else {
      SegmentFrame(m, t, t', s, other);
    }
    if other.kind.NetworkProfile? && ProfileSegment(m, t, e) < |t.segments| {
      if ProfileSegment(m, t, other) < |t.segments| {
        ProfilesApart(m, t, e, other);
      }
      ProfileOfStep(m, t, t', other, t.segments[ProfileSegment(m, t, e)].id);
    }
  }

  // ---- the plan's reads stay valid until the change is performed ----

  predicate CarriesAs(read: ProfileRow, row: ProfileRow)
  {
    && read.version == row.version && read.dictionary == row.dictionary && read.termination == row.termination
    && read.filterId == row.filterId && read.serviceType == row.serviceType
  }

  ghost predicate NetworkConsistent(m: Manifest, t: TenantState, c: PlannedChange)
  {
    && Plannable(c)
    && (c.entity.kind.NetworkPolicy? ==> c.readPolicy == Some(t.policy))
    && (c.entity.kind.NetworkSegment? ==>
          var row := SegmentRowOf(t, c.entity);
          && (c.action.Create? <==> row.None?)
          && (row.Some? ==> c.id == Some(row.value.id) && c.readSegment == row))
    && (c.entity.kind.NetworkProfile? ==>
          var row := ProfileRowOf(m, t, c.entity);
          && (c.action.Create? <==> row.None?)
          && (row.Some? ==> c.readProfile.Some? && CarriesAs(c.readProfile.value.profile, row.value)))
  }

  lemma PlannedConsistent(m: Manifest, t: TenantState, e: Entity, c: PlannedChange)
    requires Declared(m, e) && PlanEntity(m, t, e) == Ok(c)
    ensures NetworkConsistent(m, t, c) && c.entity == e
  {
  }

  lemma ConsistentFrame(m: Manifest, t: TenantState, t': TenantState, c: PlannedChange, other: Entity)
    requires Declared(m, c.entity) && Declared(m, other) && c.entity != other
    requires NetworkWf(t) && NetworkStep(m, t, t', other) && NetworkConsistent(m, t, c)
    ensures NetworkConsistent(m, t', c)
  {
    if c.entity.kind.NetworkPolicy? {
      CoherentPair(m, c.entity, other);
    }
    if c.entity.kind.NetworkSegment? {
      SegmentFrame(m, t, t', c.entity, other);
    }
    if c.entity.kind.NetworkProfile? {
      ProfileFrame(m, t, t', c.entity, other);
    }
  }

  // ---- what apply remembers of the segments is what the server holds ----

  ghost predicate SegmentsKnown(m: Manifest, run: Run)
  {
    forall s :: s in m && s.kind.NetworkSegment? && s.segment.Some? ==>
      && ((NetworkSegment, s.key) in run.resolved <==> s.key in run.versions)
      && (s.key in run.versions ==>
            var row := SegmentRowOf(run.world.tenant, s);
            && row.Some? && row.value.id == run.resolved[(NetworkSegment, s.key)]
            && row.value.version == run.versions[s.key])
  }

  ghost predicate TraceCurrent(w: World)
  {
    forall i :: 0 <= i < |w.trace| ==> VersionsCurrent(w.trace[i].before, w.trace[i].request)
  }

  // A failure the versions of conditional writes would cause.
  predicate IsStale(f: Option<Failure>)
  {
    f == Some(ServerRefused(StaleVersion))
  }

  // ---- performing a network change ----

  // What one performed network change guarantees.
  ghost predicate NetworkOutcome(m: Manifest, run: Run, c: PlannedChange, o: Outcome)
    requires HasSpec(c.entity)
  {
    && NetworkStep(m, run.world.tenant, o.run.world.tenant, c.entity)
    && NetworkWf(o.run.world.tenant)
    && TraceCurrent(o.run.world)
    && !IsStale(o.failure)
    && o.change.entity == c.entity
    && run.resolved.Keys <= o.run.resolved.Keys
    && (forall k, key :: (k, key) in o.run.resolved && k != NetworkSegment ==>
          (k, key) in run.resolved && o.run.resolved[(k, key)] == run.resolved[(k, key)])
  }

  ghost predicate StoredAs(want: ProfileSpec, row: ProfileRow)
  {
    && row.sessionTimeout == want.sessionTimeout
    && (want.termination.Some? ==> row.termination == want.termination.value)
    && (want.idle.Some? ==> row.idle == want.idle.value)
    && (row.idle.Some? ==> row.idle.value <= row.sessionTimeout)
    && (want.filterId.Some? ==> row.filterId == want.filterId.value)
    && (want.serviceType.Some? ==> row.serviceType == want.serviceType.value)
  }

  // A successful network change leaves what the manifest states.
  ghost predicate NetworkDone(m: Manifest, t: TenantState, e: Entity)
    requires HasSpec(e)
  {
    && (e.kind.NetworkPolicy? ==> t.policy.cap == e.policyCap.value)
    && (e.kind.NetworkSegment? ==>
          var row := SegmentRowOf(t, e); row.Some? && !SegmentDrifted(e.segment.value, row.value))
    && (e.kind.NetworkProfile? ==>
          var row := ProfileRowOf(m, t, e);
          row.Some? && StoredAs(e.profile.value, row.value) && row.value.sessionTimeout <= t.policy.cap)
  }

  lemma TraceGrows(w: World, req: Request)
    requires TraceCurrent(w) && VersionsCurrent(w.tenant, req)
    ensures TraceCurrent(Send(w, req).0)
  {
  }

  lemma PerformPolicyOutcome(m: Manifest, c: PlannedChange, run: Run)
    requires Declared(m, c.entity) && c.entity.kind.NetworkPolicy?
    requires NetworkWf(run.world.tenant) && TraceCurrent(run.world) && SegmentsKnown(m, run)
    requires NetworkConsistent(m, run.world.tenant, c)
    ensures var o := PerformPolicy(c, run);
            && NetworkOutcome(m, run, c, o) && SegmentsKnown(m, o.run)
            && (o.failure.None? ==> NetworkDone(m, o.run.world.tenant, c.entity))
  {
    var o := PerformPolicy(c, run);
    TraceGrows(run.world, ReplacePolicy(c.entity.policyCap.value, c.readPolicy.value.version));
    SegmentsKnownSame(m, run, o.run);
  }

  lemma SegmentBodyEffect(m: Manifest, c: PlannedChange, t: TenantState, body: Request)
    requires Declared(m, c.entity) && c.entity.kind.NetworkSegment? && NetworkWf(t)
    requires NetworkConsistent(m, t, c)
    requires body == if c.action.Create? then SegmentCreateBody(c.entity.segment.value)
                     else SegmentReplaceBody(c.entity.segment.value, c.id.value, c.readSegment.value)
    requires c.action.Create? ==> WireKind(c.entity.segment.value.kind) != ""
    ensures VersionsCurrent(t, body)
    ensures var (t', r) := Handle(t, body);
            && NetworkStep(m, t, t', c.entity)
            && r.Accepted?
            && var row := SegmentRowOf(t', c.entity);
               && row.Some? && row.value.id == r.id && row.value.version == r.version
               && !SegmentDrifted(c.entity.segment.value, row.value)
  {
    var spec := c.entity.segment.value;
    var (t', r) := Handle(t, body);
    var i := FindSegment(t.segments, spec);
    if c.action.Create? {
      assert t'.segments[..i] == t.segments;
      assert forall k :: 0 <= k < i ==> t'.segments[k] == t.segments[k];
    } else {
      SegmentById(t, i);
      assert forall k :: 0 <= k < |t.segments| && k != i ==> t'.segments[k] == t.segments[k];
    }
    assert SegmentMatches(t'.segments[i], spec);
    FindSegmentAt(t'.segments, spec, i);
  }

  lemma FindSegmentAt(rows: seq<SegmentRow>, spec: SegmentSpec, i: nat)
    requires i < |rows| && SegmentMatches(rows[i], spec)
    requires forall k :: 0 <= k < i ==> !SegmentMatches(rows[k], spec)
    ensures FindSegment(rows, spec) == i
  {
  }

  lemma ProfileOfAt(rows: seq<ProfileRow>, id: Id, j: nat)
    requires j < |rows| && rows[j].segmentId == id
    requires forall k :: 0 <= k < j ==> rows[k].segmentId != id
    ensures ProfileOf(rows, id) == j
  {
  }

  lemma SegmentsKnownAfter(m: Manifest, run: Run, e: Entity, run': Run)
    requires Declared(m, e) && e.kind.NetworkSegment? && SegmentsKnown(m, run)
    requires NetworkStep(m, run.world.tenant, run'.world.tenant, e)
    requires SegmentRowOf(run'.world.tenant, e).Some?
    requires run'.resolved == run.resolved[(NetworkSegment, e.key) := SegmentRowOf(run'.world.tenant, e).value.id]
    requires run'.versions == run.versions[e.key := SegmentRowOf(run'.world.tenant, e).value.version]
    ensures SegmentsKnown(m, run')
  {
    forall s | s in m && s.kind.NetworkSegment? && s.segment.Some? && s != e
      ensures s.key != e.key && SegmentRowOf(run'.world.tenant, s) == SegmentRowOf(run.world.tenant, s)
    {
      CoherentPair(m, s, e);
      DeclaredIn(m, s);
      SegmentFrame(m, run.world.tenant, run'.world.tenant, s, e);
    }
  }

  lemma SegmentSendOutcome(m: Manifest, c: PlannedChange, w: World, body: Request)
    requires Declared(m, c.entity) && c.entity.kind.NetworkSegment? && NetworkWf(w.tenant) && TraceCurrent(w)
    requires NetworkConsistent(m, w.tenant, c)
    requires body == if c.action.Create? then SegmentCreateBody(c.entity.segment.value)
                     else SegmentReplaceBody(c.entity.segment.value, c.id.value, c.readSegment.value)
    requires c.action.Create? ==> WireKind(c.entity.segment.value.kind) != ""
    ensures var (w', r) := Send(w, body);
            && TraceCurrent(w') && NetworkStep(m, w.tenant, w'.tenant, c.entity) && NetworkWf(w'.tenant)
            && !r.Refused?
            && (r.Accepted? ==>
                  var row := SegmentRowOf(w'.tenant, c.entity);
                  && row.Some? && row.value.id == r.id && row.value.version == r.version
                  && !SegmentDrifted(c.entity.segment.value, row.value))
            && (!r.Accepted? ==> w'.tenant == w.tenant)
  {
    SegmentBodyEffect(m, c, w.tenant, body);
    TraceGrows(w, body);
    NetworkStepWf(m, w.tenant, Handle(w.tenant, body).0, c.entity);
  }

  lemma PerformSegmentOutcome(m: Manifest, c: PlannedChange, run: Run)
    requires Declared(m, c.entity) && c.entity.kind.NetworkSegment?
    requires NetworkWf(run.world.tenant) && TraceCurrent(run.world) && SegmentsKnown(m, run)
    requires NetworkConsistent(m, run.world.tenant, c)
    ensures SegmentOutcome(m, run, c, PerformSegment(c, run))
  {
    var spec := c.entity.segment.value;
    if !(c.action.Create? && WireKind(spec.kind) == "") {
      var body := if c.action.Create? then SegmentCreateBody(spec)
                  else SegmentReplaceBody(spec, c.id.value, c.readSegment.value);
      SegmentSendOutcome(m, c, run.world, body);
      SegmentSent(m, c, run, body);
    }
  }

  ghost predicate SegmentOutcome(m: Manifest, run: Run, c: PlannedChange, o: Outcome)
    requires HasSpec(c.entity)
  {
    && NetworkOutcome(m, run, c, o) && SegmentsKnown(m, o.run)
    && (o.failure.None? ==> NetworkDone(m, o.run.world.tenant, c.entity))
    && (o.failure.None? ==> (NetworkSegment, c.entity.key) in o.run.resolved)
  }

  // The id and the version an accepted write answers with are recorded.
  lemma SegmentSent(m: Manifest, c: PlannedChange, run: Run, body: Request)
    requires Declared(m, c.entity) && c.entity.kind.NetworkSegment? && SegmentsKnown(m, run)
    requires NetworkWf(run.world.tenant)
    requires var (w', r) := Send(run.world, body);
             && TraceCurrent(w') && NetworkStep(m, run.world.tenant, w'.tenant, c.entity) && NetworkWf(w'.tenant)
             && !r.Refused?
             && (r.Accepted? ==>
                   var row := SegmentRowOf(w'.tenant, c.entity);
                   && row.Some? && row.value.id == r.id && row.value.version == r.version
                   && !SegmentDrifted(c.entity.segment.value, row.value))
             && (!r.Accepted? ==> w'.tenant == run.world.tenant)
    ensures var (w', r) := Send(run.world, body);
            SegmentOutcome(m, run, c,
              if !r.Accepted? then Outcome(run.(world := w'), c, Some(FailureOf(r)))
              else Outcome(Run(w', run.resolved[(NetworkSegment, c.entity.key) := r.id],
                               run.versions[c.entity.key := r.version]), c.(id := Some(r.id)), None))
  {
    var (w', r) := Send(run.world, body);
    if r.Accepted? {
      SegmentsKnownAfter(m, run, c.entity, Run(w', run.resolved[(NetworkSegment, c.entity.key) := r.id],
                                               run.versions[c.entity.key := r.version]));
    } else {
      SegmentsKnownSame(m, run, run.(world := w'));
    }
  }

  lemma ProfileStored(m: Manifest, c: PlannedChange, t: TenantState, body: Request, id: Id, version: int, input: ProfileInput)
    requires Declared(m, c.entity) && c.entity.kind.NetworkProfile? && NetworkWf(t)
    requires NetworkConsistent(m, t, c)
    requires ProfileSegment(m, t, c.entity) < |t.segments|
    requires var row := t.segments[ProfileSegment(m, t, c.entity)]; row.id == id && row.version == version
    requires c.action.Create? ==>
               input == ProfileCreateInput(c.entity.profile.value) && body == CreateProfile(id, version, input)
    requires !c.action.Create? ==>
               && input == ProfileReplaceInput(c.entity.profile.value, c.readProfile.value.profile)
               && body == ReplaceProfile(id, c.readProfile.value.profile.version, version, input)
    ensures VersionsCurrent(t, body)
    ensures var (t', r) := Handle(t, body);
            && NetworkStep(m, t, t', c.entity)
            && r != Refused(StaleVersion)
            && (r.Accepted? ==> NetworkDone(m, t', c.entity))
  {
    var e := c.entity;
    var i, j := ProfileSegment(m, t, e), ProfileIndex(m, t, e);
    SegmentById(t, i);
    var (t', r) := Handle(t, body);
    if r.Accepted? {
      assert t'.segments == t.segments && ProfileSegment(m, t', e) == i;
      if c.action.Create? {
        assert t'.profiles[..j] == t.profiles;
        assert forall k :: 0 <= k < j ==> t'.profiles[k] == t.profiles[k];
      } else {
        assert forall k :: 0 <= k < |t.profiles| && k != j ==> t'.profiles[k] == t.profiles[k];
      }
      ProfileOfAt(t'.profiles, id, j);
      assert ProfileIndex(m, t', e) == j;
    }
  }

  lemma PerformProfileOutcome(m: Manifest, c: PlannedChange, run: Run)
    requires Declared(m, c.entity) && c.entity.kind.NetworkProfile?
    requires NetworkWf(run.world.tenant) && TraceCurrent(run.world) && SegmentsKnown(m, run)
    requires NetworkConsistent(m, run.world.tenant, c)
    ensures var o := PerformProfile(c, run);
            && NetworkOutcome(m, run, c, o) && SegmentsKnown(m, o.run)
            && (o.failure.None? ==> NetworkDone(m, o.run.world.tenant, c.entity))
            && ((NetworkSegment, c.entity.profile.value.segment) in run.resolved ==>
                  !(o.failure.Some? && (o.failure.value.Unresolved? || o.failure.value.NoVersion?)))
  {
    var e, t := c.entity, run.world.tenant;
    var o := PerformProfile(c, run);
    DeclaredIn(m, e);
    var s := OwnSegment(m, e);
    ProfileSegmentIsOwn(m, t, e);
    assert (NetworkSegment, s.key) in run.resolved <==> s.key in run.versions;
    if (NetworkSegment, s.key) in run.resolved {
      var id, version := run.resolved[(NetworkSegment, s.key)], run.versions[s.key];
      var input := if c.action.Create? then ProfileCreateInput(e.profile.value)
                   else ProfileReplaceInput(e.profile.value, c.readProfile.value.profile);
      var body := if c.action.Create? then CreateProfile(id, version, input)
                  else ReplaceProfile(id, c.readProfile.value.profile.version, version, input);
      if !Unsendable(input) {
        ProfileSendOutcome(m, c, run, body, id, version, input);
      }
    }
    SegmentsKnownSame(m, run, o.run);
  }

  lemma ProfileSendOutcome(m: Manifest, c: PlannedChange, run: Run, body: Request, id: Id, version: int, input: ProfileInput)
    requires Declared(m, c.entity) && c.entity.kind.NetworkProfile? && NetworkWf(run.world.tenant)
    requires NetworkConsistent(m, run.world.tenant, c) && TraceCurrent(run.world)
    requires var t := run.world.tenant;
             && ProfileSegment(m, t, c.entity) < |t.segments|
             && t.segments[ProfileSegment(m, t, c.entity)].id == id
             && t.segments[ProfileSegment(m, t, c.entity)].version == version
    requires c.action.Create? ==>
               input == ProfileCreateInput(c.entity.profile.value) && body == CreateProfile(id, version, input)
    requires !c.action.Create? ==>
               && input == ProfileReplaceInput(c.entity.profile.value, c.readProfile.value.profile)
               && body == ReplaceProfile(id, c.readProfile.value.profile.version, version, input)
    ensures var (w, r) := Send(run.world, body);
            && TraceCurrent(w) && NetworkStep(m, run.world.tenant, w.tenant, c.entity) && NetworkWf(w.tenant)
            && r != Refused(StaleVersion)
            && (r.Accepted? ==> NetworkDone(m, w.tenant, c.entity))
            && w.tenant.segments == run.world.tenant.segments
  {
    var t := run.world.tenant;
    ProfileStored(m, c, t, body, id, version, input);
    TraceGrows(run.world, body);
    NetworkStepWf(m, t, Handle(t, body).0, c.entity);
  }

  lemma SegmentsKnownSame(m: Manifest, run: Run, run': Run)
    requires SegmentsKnown(m, run) && run'.resolved == run.resolved && run'.versions == run.versions
    requires run'.world.tenant.segments == run.world.tenant.segments
    ensures SegmentsKnown(m, run')
  {
    forall s | s in m && s.kind.NetworkSegment? && s.segment.Some?
      ensures SegmentRowOf(run'.world.tenant, s) == SegmentRowOf(run.world.tenant, s)
    {
    }
  }
}
