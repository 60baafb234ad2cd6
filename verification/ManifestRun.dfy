// Whole runs of apply: no conditional write is stale, and no id or version is missing when it is
// needed.
module ManifestRun {
  import opened Prelude
  import opened ManifestTypes
  import opened ManifestOrder
  import opened Tenant
  import opened ManifestPlan
  import opened ManifestApply
  import opened ManifestNetwork
  import opened ManifestBindings
  import opened ManifestPerform

  // ---- a named change, whatever the tables look like ----

  lemma SendNamed(w: World, req: Request)
    requires req.CreateRow? || req.UpdateRow?
    ensures SameNetwork(w.tenant, Send(w, req).0.tenant)
    ensures TraceCurrent(w) ==> TraceCurrent(Send(w, req).0)
    ensures Send(w, req).1 != Refused(StaleVersion)
  {
    if TraceCurrent(w) { TraceGrows(w, req); }
  }

  lemma WriteRowAlways(w: World, e: Entity, c: PlannedChange, parent: Option<Id>)
    ensures var (w', r) := WriteRow(w, e, c, parent);
            && SameNetwork(w.tenant, w'.tenant) && (TraceCurrent(w) ==> TraceCurrent(w'))
            && (r.Err? ==> r.error != ServerRefused(StaleVersion) && !Internal(r.error))
  {
    var id := c.id.GetOr(0);
    var body := if c.action.Create? then Some(CreateBody(e, parent)) else UpdateBody(e, id, parent);
    if body.Some? { SendNamed(w, body.value); }
  }

  lemma PerformNamedAlways(m: Manifest, c: PlannedChange, run: Run)
    ensures var o := PerformNamed(m, c, run);
            && SameNetwork(run.world.tenant, o.run.world.tenant)
            && (TraceCurrent(run.world) ==> TraceCurrent(o.run.world))
            && !IsStale(o.failure)
            && (NeedsResolved(m, run.resolved, c.entity) ==> !(o.failure.Some? && Internal(o.failure.value)))
            && o.run.versions == run.versions
            && (forall key :: key in run.resolved ==> key in o.run.resolved)
            && (o.failure.None? ==> (c.entity.kind, c.entity.key) in o.run.resolved)
            && (forall key :: key in o.run.resolved && key != (c.entity.kind, c.entity.key) ==>
                  key in run.resolved && o.run.resolved[key] == run.resolved[key])
  {
    var e := c.entity;
    var parent := ParentId(m, run.resolved, e);
    if parent.Ok? {
      WriteRowAlways(run.world, e, c, parent.value);
      var (w1, written) := WriteRow(run.world, e, c, parent.value);
      if written.Ok? {
        var resolved := run.resolved[(e.kind, e.key) := written.value];
        PerformBindingsEffect(m, resolved, w1, e, written.value, c.action.Create?);
        if NeedsResolved(m, run.resolved, e) && IsSubject(e.kind) {
          assert forall i :: 0 <= i < |e.roles| ==> BindingResolved(resolved, e.roles[i]);
        }
      }
    }
  }

  // ---- order ----

  // Every resource comes after the resource it depends on.
  ghost predicate ParentsFirst(m: Manifest)
  {
    forall e :: e in m && e.kind.Resource? && e.dependsOn.Some? ==>
      var p := FindKeyOfKind(m, e.dependsOn.value, Resource);
      p.Some? ==> Less(m, p.value, e)
  }

  lemma DistinctKeysParentsFirst(m: Manifest)
    requires Coherent(m) && DistinctKeys(m)
    ensures ParentsFirst(m)
  {
    forall e | e in m && e.kind.Resource? && e.dependsOn.Some? && FindKeyOfKind(m, e.dependsOn.value, Resource).Some?
      ensures Less(m, FindKeyOfKind(m, e.dependsOn.value, Resource).value, e)
    {
      ParentPrecedes(m, e);
    }
  }

  // The plan of a coherent manifest, entity by entity in apply order.
  ghost predicate PlanOf(m: Manifest, cs: seq<PlannedChange>)
  {
    && Coherent(m) && |cs| == |Ordered(m)|
    && (forall i :: 0 <= i < |cs| ==> cs[i].entity == Ordered(m)[i] && Plannable(cs[i]))
    && (forall i :: 0 <= i < |cs| ==> (cs[i].action.Create? <==> cs[i].id.None?) || cs[i].entity.kind.NetworkPolicy?)
  }

  lemma PlanEntityShape(m: Manifest, t: TenantState, e: Entity, c: PlannedChange)
    requires HasSpec(e) && PlanEntity(m, t, e) == Ok(c)
    ensures c.entity == e && Plannable(c)
    ensures (c.action.Create? <==> c.id.None?) || e.kind.NetworkPolicy?
  {
  }

  lemma PlanIsPlanOf(m: Manifest, t: TenantState)
    requires Plan(m, t).Ok?
    ensures PlanOf(m, Plan(m, t).value)
  {
    OrderedSpecs(m);
    var cs := Plan(m, t).value;
    forall i | 0 <= i < |cs|
      ensures cs[i].entity == Ordered(m)[i] && Plannable(cs[i])
      ensures (cs[i].action.Create? <==> cs[i].id.None?) || cs[i].entity.kind.NetworkPolicy?
    {
      assert PlanEntity(m, t, Ordered(m)[i]) == Ok(cs[i]);
      PlanEntityShape(m, t, Ordered(m)[i], cs[i]);
    }
  }

  lemma EntityAt(m: Manifest, cs: seq<PlannedChange>, i: nat)
    requires PlanOf(m, cs) && i < |cs|
    ensures cs[i].entity in m && Declared(m, cs[i].entity)
    ensures forall j :: 0 <= j < |cs| && j != i ==> cs[j].entity != cs[i].entity
  {
    OrderedSpec(m);
    assert Ordered(m)[i] in Ordered(m);
    DeclaredIn(m, cs[i].entity);
  }

  // ---- the invariant of the apply loop ----

  ghost predicate Covered(cs: seq<PlannedChange>, k: nat, resolved: ResolvedIds)
  {
    forall i :: 0 <= i < |cs| && (i < k || cs[i].id.Some?) && !cs[i].entity.kind.NetworkPolicy?
                && !cs[i].entity.kind.NetworkProfile? ==>
      (cs[i].entity.kind, cs[i].entity.key) in resolved
  }

  // Before change k: earlier changes are done or were Unchanged, later ones are still as planned.
  ghost predicate RunInv(m: Manifest, cs: seq<PlannedChange>, k: nat, run: Run)
  {
    && PlanOf(m, cs) && k <= |cs|
    && NetworkWf(run.world.tenant) && TraceCurrent(run.world) && SegmentsKnown(m, run)
    && (forall i :: k <= i < |cs| ==> NetworkConsistent(m, run.world.tenant, cs[i]))
    && Covered(cs, k, run.resolved)
  }

  // An entity that sorts earlier has its id by now.
  lemma EarlierResolved(m: Manifest, cs: seq<PlannedChange>, k: nat, resolved: ResolvedIds, p: Entity)
    requires PlanOf(m, cs) && k < |cs| && Covered(cs, k, resolved)
    requires p in m && Less(m, p, cs[k].entity) && !p.kind.NetworkPolicy? && !p.kind.NetworkProfile?
    ensures (p.kind, p.key) in resolved
  {
    EntityAt(m, cs, k);
    var i, j := Precedes(m, p, cs[k].entity);
    assert j == k by {
      if j != k { EntityAt(m, cs, j); }
    }
    assert cs[i].entity == p;
  }

  lemma NeedsMet(m: Manifest, cs: seq<PlannedChange>, k: nat, resolved: ResolvedIds)
    requires PlanOf(m, cs) && k < |cs| && Covered(cs, k, resolved) && ParentsFirst(m)
    ensures NeedsResolved(m, resolved, cs[k].entity)
    ensures cs[k].entity.kind.NetworkProfile? ==>
              (NetworkSegment, cs[k].entity.profile.value.segment) in resolved
  {
    var e := cs[k].entity;
    EntityAt(m, cs, k);
    if e.kind.Resource? && e.dependsOn.Some? {
      var p := FindKeyOfKind(m, e.dependsOn.value, Resource);
      if p.Some? { EarlierResolved(m, cs, k, resolved, p.value); }
    }
    if IsSubject(e.kind) {
      forall i | 0 <= i < |e.roles| ensures BindingResolved(resolved, e.roles[i]) {
        var b := e.roles[i];
        assert BindingOk(m, b);
        EarlierResolved(m, cs, k, resolved, FindKeyOfKind(m, b.role, Role).value);
        if b.resource.Some? {
          EarlierResolved(m, cs, k, resolved, FindKeyOfKind(m, b.resource.value, Resource).value);
        }
      }
    }
    if e.kind.NetworkProfile? {
      EarlierResolved(m, cs, k, resolved, OwnSegment(m, e));
    }
  }

  // What one perform guarantees to the loop.
  ghost predicate StepGood(m: Manifest, run: Run, c: PlannedChange, o: Outcome)
    requires HasSpec(c.entity)
  {
    && NetworkStep(m, run.world.tenant, o.run.world.tenant, c.entity)
    && NetworkWf(o.run.world.tenant) && TraceCurrent(o.run.world) && SegmentsKnown(m, o.run)
    && !IsStale(o.failure)
    && (o.failure.Some? ==> o.run.world.tenant.policy == run.world.tenant.policy)
    && (o.failure.None? ==> NetworkDone(m, o.run.world.tenant, c.entity))
    && (forall key :: key in run.resolved ==> key in o.run.resolved)
    && (o.failure.None? && !c.entity.kind.NetworkPolicy? && !c.entity.kind.NetworkProfile? ==>
          (c.entity.kind, c.entity.key) in o.run.resolved)
  }

  lemma PerformStep(m: Manifest, cs: seq<PlannedChange>, k: nat, run: Run)
    requires RunInv(m, cs, k, run) && k < |cs|
    ensures StepGood(m, run, cs[k], Perform(m, cs[k], run))
    ensures ParentsFirst(m) ==>
              var f := Perform(m, cs[k], run).failure; !(f.Some? && Internal(f.value))
  {
    EntityAt(m, cs, k);
    if ParentsFirst(m) { NeedsMet(m, cs, k, run.resolved); }
    if IsNetwork(cs[k].entity.kind) {
      NetworkStepGood(m, cs[k], run);
    } else {
      NamedStepGood(m, cs[k], run);
    }
  }

  lemma NetworkStepGood(m: Manifest, c: PlannedChange, run: Run)
    requires Declared(m, c.entity) && IsNetwork(c.entity.kind) && Plannable(c)
    requires NetworkWf(run.world.tenant) && TraceCurrent(run.world) && SegmentsKnown(m, run)
    requires NetworkConsistent(m, run.world.tenant, c)
    ensures StepGood(m, run, c, Perform(m, c, run))
    ensures (c.entity.kind.NetworkProfile? ==> (NetworkSegment, c.entity.profile.value.segment) in run.resolved) ==>
              var f := Perform(m, c, run).failure; !(f.Some? && Internal(f.value))
  {
    match c.entity.kind
    case NetworkPolicy => PerformPolicyOutcome(m, c, run);
    case NetworkSegment => PerformSegmentOutcome(m, c, run);
    case NetworkProfile => PerformProfileOutcome(m, c, run);
  }

  lemma NamedStepGood(m: Manifest, c: PlannedChange, run: Run)
    requires HasSpec(c.entity) && !IsNetwork(c.entity.kind)
    requires NetworkWf(run.world.tenant) && TraceCurrent(run.world) && SegmentsKnown(m, run)
    ensures StepGood(m, run, c, PerformNamed(m, c, run))
    ensures NeedsResolved(m, run.resolved, c.entity) ==>
              var f := PerformNamed(m, c, run).failure; !(f.Some? && Internal(f.value))
  {
    PerformNamedAlways(m, c, run);
    var o := PerformNamed(m, c, run);
    SameNetworkWf(run.world.tenant, o.run.world.tenant);
    assert SegmentsKnown(m, o.run) by {
      forall s | s in m && s.kind.NetworkSegment? && s.segment.Some?
        ensures SegmentRowOf(o.run.world.tenant, s) == SegmentRowOf(run.world.tenant, s)
        ensures (NetworkSegment, s.key) in o.run.resolved <==> (NetworkSegment, s.key) in run.resolved
      {
      }
    }
  }

  lemma SameNetworkWf(t: TenantState, t': TenantState)
    requires NetworkWf(t) && SameNetwork(t, t')
    ensures NetworkWf(t')
  {
  }

  // A successful perform carries the invariant to the next change.
  lemma RunInvNext(m: Manifest, cs: seq<PlannedChange>, k: nat, run: Run, o: Outcome)
    requires RunInv(m, cs, k, run) && k < |cs|
    requires StepGood(m, run, cs[k], o) && o.failure.None?
    ensures RunInv(m, cs, k + 1, o.run)
  {
    EntityAt(m, cs, k);
    forall i | k + 1 <= i < |cs| ensures NetworkConsistent(m, o.run.world.tenant, cs[i]) {
      EntityAt(m, cs, i);
      ConsistentFrame(m, run.world.tenant, o.run.world.tenant, cs[i], cs[k].entity);
    }
  }

  lemma RunInvSkip(m: Manifest, cs: seq<PlannedChange>, k: nat, run: Run)
    requires RunInv(m, cs, k, run) && k < |cs| && cs[k].action.Unchanged?
    ensures RunInv(m, cs, k + 1, run)
  {
    EntityAt(m, cs, k);
    assert cs[k].id.Some? || cs[k].entity.kind.NetworkPolicy?;
  }

  lemma {:induction false} ApplyFrom(m: Manifest, cs: seq<PlannedChange>, k: nat, run: Run)
    requires RunInv(m, cs, k, run)
    requires forall c :: c in Pending(cs[k..]) ==> Plannable(c)
    ensures var (run', report) := ApplySeq(m, Pending(cs[k..]), run);
            && TraceCurrent(run'.world) && !IsStale(report.failure)
            && (ParentsFirst(m) ==> !(report.failure.Some? && Internal(report.failure.value)))
    decreases |cs| - k
  {
    if k < |cs| {
      PendingStep(cs, k);
      if cs[k].action.Unchanged? {
        RunInvSkip(m, cs, k, run);
        ApplyFrom(m, cs, k + 1, run);
      } else {
        var o := Perform(m, cs[k], run);
        PerformStep(m, cs, k, run);
        assert Pending(cs[k..])[1..] == Pending(cs[k + 1..]);
        if o.failure.None? {
          RunInvNext(m, cs, k, run, o);
          ApplyFrom(m, cs, k + 1, o.run);
        }
      }
    }
  }

  lemma PendingStep(cs: seq<PlannedChange>, k: nat)
    requires k < |cs|
    ensures Pending(cs[k..]) ==
            (if cs[k].action.Unchanged? then Pending(cs[k + 1..]) else [cs[k]] + Pending(cs[k + 1..]))
  {
    assert cs[k..][0] == cs[k] && cs[k..][1..] == cs[k + 1..];
  }

  // A property of the loop that every step keeps holds at the end of a complete run.
  lemma {:induction false} CompleteRunKeeps(m: Manifest, cs: seq<PlannedChange>, k: nat, run: Run, p: (nat, Run) -> bool)
    requires k <= |cs| && p(k, run)
    requires forall c :: c in Pending(cs[k..]) ==> Plannable(c)
    requires forall i: nat, r: Run :: i < |cs| && p(i, r) && cs[i].action.Unchanged? ==> p(i + 1, r)
    requires forall i: nat, r: Run :: i < |cs| && p(i, r) && !cs[i].action.Unchanged? && Plannable(cs[i]) ==>
               Perform(m, cs[i], r).failure.None? ==> p(i + 1, Perform(m, cs[i], r).run)
    ensures var (run', report) := ApplySeq(m, Pending(cs[k..]), run); report.Complete() ==> p(|cs|, run')
    decreases |cs| - k
  {
    if k < |cs| {
      PendingStep(cs, k);
      if cs[k].action.Unchanged? {
        CompleteRunKeeps(m, cs, k + 1, run, p);
      } else {
        var rest := Pending(cs[k + 1..]);
        assert Pending(cs[k..])[0] == cs[k] && Pending(cs[k..])[1..] == rest;
        assert cs[k] in Pending(cs[k..]);
        var o := Perform(m, cs[k], run);
        if o.failure.None? {
          CompleteRunKeeps(m, cs, k + 1, o.run, p);
        }
      }
    }
  }

  // ---- the seeds ----

  lemma {:induction false} SeedResolvedKeys(cs: seq<PlannedChange>)
    requires forall i, j :: 0 <= i < j < |cs| ==>
               (cs[i].entity.kind, cs[i].entity.key) != (cs[j].entity.kind, cs[j].entity.key)
    ensures forall i :: 0 <= i < |cs| ==>
              var key := (cs[i].entity.kind, cs[i].entity.key);
              && (key in SeedResolved(cs) <==> cs[i].id.Some?)
              && (cs[i].id.Some? ==> SeedResolved(cs)[key] == cs[i].id.value)
    ensures forall key :: key in SeedResolved(cs) ==>
              exists i :: 0 <= i < |cs| && key == (cs[i].entity.kind, cs[i].entity.key)
  {
    if cs != [] {
      var front := cs[..|cs| - 1];
      SeedResolvedKeys(front);
      forall key | key in SeedResolved(cs)
        ensures exists i :: 0 <= i < |cs| && key == (cs[i].entity.kind, cs[i].entity.key)
      {
        if key in SeedResolved(front) {
          var i :| 0 <= i < |front| && key == (front[i].entity.kind, front[i].entity.key);
          assert cs[i] == front[i];
        } else {
          assert key == (cs[|cs| - 1].entity.kind, cs[|cs| - 1].entity.key);
        }
      }
    }
  }

  lemma {:induction false} SeedVersionsKeys(cs: seq<PlannedChange>)
    requires forall i, j :: 0 <= i < j < |cs| ==>
               (cs[i].entity.kind, cs[i].entity.key) != (cs[j].entity.kind, cs[j].entity.key)
    ensures forall i :: 0 <= i < |cs| && cs[i].entity.kind.NetworkSegment? ==>
              && (cs[i].entity.key in SeedVersions(cs) <==> cs[i].readSegment.Some?)
              && (cs[i].readSegment.Some? ==> SeedVersions(cs)[cs[i].entity.key] == cs[i].readSegment.value.version)
    ensures forall key :: key in SeedVersions(cs) ==>
              exists i :: 0 <= i < |cs| && cs[i].entity.kind.NetworkSegment? && key == cs[i].entity.key
  {
    if cs != [] {
      var front := cs[..|cs| - 1];
      SeedVersionsKeys(front);
      forall key | key in SeedVersions(cs)
        ensures exists i :: 0 <= i < |cs| && cs[i].entity.kind.NetworkSegment? && key == cs[i].entity.key
      {
        if key in SeedVersions(front) {
          var i :| 0 <= i < |front| && front[i].entity.kind.NetworkSegment? && key == front[i].entity.key;
          assert cs[i] == front[i];
        } else {
          assert key == cs[|cs| - 1].entity.key;
        }
      }
    }
  }

  lemma PlanKeysApart(m: Manifest, cs: seq<PlannedChange>)
    requires PlanOf(m, cs)
    ensures forall i, j :: 0 <= i < j < |cs| ==>
              (cs[i].entity.kind, cs[i].entity.key) != (cs[j].entity.kind, cs[j].entity.key)
  {
    forall i, j | 0 <= i < j < |cs|
      ensures (cs[i].entity.kind, cs[i].entity.key) != (cs[j].entity.kind, cs[j].entity.key)
    {
      EntityAt(m, cs, i);
      EntityAt(m, cs, j);
      CoherentPair(m, cs[i].entity, cs[j].entity);
    }
  }

  lemma SegmentReadShape(m: Manifest, t: TenantState, cs: seq<PlannedChange>, i: nat)
    requires PlanOf(m, cs) && i < |cs| && cs[i].entity.kind.NetworkSegment?
    requires PlanEntity(m, t, cs[i].entity) == Ok(cs[i])
    ensures cs[i].readSegment == SegmentRowOf(t, cs[i].entity)
    ensures cs[i].id.Some? <==> cs[i].readSegment.Some?
    ensures cs[i].id.Some? ==> cs[i].id.value == cs[i].readSegment.value.id
  {
  }

  lemma SeedKnows(m: Manifest, w: World, cs: seq<PlannedChange>)
    requires Plan(m, w.tenant) == Ok(cs)
    ensures SegmentsKnown(m, Run(w, SeedResolved(cs), SeedVersions(cs)))
    ensures Covered(cs, 0, SeedResolved(cs))
  {
    PlanIsPlanOf(m, w.tenant);
    PlanKeysApart(m, cs);
    SeedResolvedKeys(cs);
    SeedVersionsKeys(cs);
    OrderedSpec(m);
    forall s | s in m && s.kind.NetworkSegment? && s.segment.Some?
      ensures ((NetworkSegment, s.key) in SeedResolved(cs) <==> s.key in SeedVersions(cs))
      ensures s.key in SeedVersions(cs) ==>
                var row := SegmentRowOf(w.tenant, s);
                && row.Some? && row.value.id == SeedResolved(cs)[(NetworkSegment, s.key)]
                && row.value.version == SeedVersions(cs)[s.key]
    {
      var i :| 0 <= i < |cs| && Ordered(m)[i] == s;
      SegmentReadShape(m, w.tenant, cs, i);
    }
  }

  lemma RunInvStart(m: Manifest, w: World, cs: seq<PlannedChange>)
    requires Plan(m, w.tenant) == Ok(cs) && NetworkWf(w.tenant) && w.trace == []
    ensures RunInv(m, cs, 0, Run(w, SeedResolved(cs), SeedVersions(cs)))
  {
    PlanIsPlanOf(m, w.tenant);
    SeedKnows(m, w, cs);
    forall i | 0 <= i < |cs| ensures NetworkConsistent(m, w.tenant, cs[i]) {
      EntityAt(m, cs, i);
      PlannedConsistent(m, w.tenant, cs[i].entity, cs[i]);
    }
  }

  // Every conditional write of a run names the versions the server holds when it arrives, so no
  // run ever fails with stale_version, whichever calls fail.
  lemma NoStaleWrite(m: Manifest, w: World)
    requires NetworkWf(w.tenant) && w.trace == [] && Apply(m, w).Ok?
    ensures var (run, report) := Apply(m, w).value;
            TraceCurrent(run.world) && !IsStale(report.failure)
  {
    var cs := Plan(m, w.tenant).value;
    PlanPlannable(m, w.tenant);
    PendingElements(cs);
    RunInvStart(m, w, cs);
    assert cs[0..] == cs;
    ApplyFrom(m, cs, 0, Run(w, SeedResolved(cs), SeedVersions(cs)));
  }

  // Every id and version a write needs is there when it is needed, whichever calls fail.
  lemma NothingUnresolved(m: Manifest, w: World)
    requires NetworkWf(w.tenant) && w.trace == [] && Apply(m, w).Ok?
    requires ParentsFirst(m)
    ensures var report := Apply(m, w).value.1; !(report.failure.Some? && Internal(report.failure.value))
  {
    var cs := Plan(m, w.tenant).value;
    PlanPlannable(m, w.tenant);
    PendingElements(cs);
    RunInvStart(m, w, cs);
    assert cs[0..] == cs;
    ApplyFrom(m, cs, 0, Run(w, SeedResolved(cs), SeedVersions(cs)));
  }
}
