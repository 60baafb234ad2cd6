// ManifestApi::validate: five passes over the manifest, each refusing at its first violation.
module ManifestValidate {
  import opened Prelude
  import opened ManifestTypes
  import opened ManifestCycle

  datatype ManifestError =
    | EmptyKey
    | DuplicateKey
    | NoResourceType
    | DanglingDependency
    | DependencyCycle
    | NoSpec
    | SecondPolicy
    | DuplicateNaturalKey
    | DuplicateFilterId
    | DanglingSegment
    | SecondProfile
    | BadBinding

  // ---- the five clauses of coherence ----

  ghost predicate KeysOk(m: Manifest)
  {
    && (forall e :: e in m ==> e.key != "" && (e.kind.Resource? ==> e.resourceType != ""))
    && (forall i, j :: 0 <= i < j < |m| ==> !(m[i].kind == m[j].kind && m[i].key == m[j].key))
  }

  ghost predicate DependenciesOk(m: Manifest)
  {
    forall e :: e in m ==> e.dependsOn.Some? ==> FindKey(m, e.dependsOn.value).Some?
  }

  ghost predicate NetworkEntityOk(m: Manifest, e: Entity)
  {
    && (e.kind.NetworkPolicy? ==> e.policyCap.Some?)
    && (e.kind.NetworkSegment? ==>
          && e.segment.Some?
          && (e.segment.value.filterIds.Some? ==> NoDuplicates(e.segment.value.filterIds.value)))
    && (e.kind.NetworkProfile? ==>
          && e.profile.Some?
          && FindKeyOfKind(m, e.profile.value.segment, NetworkSegment).Some?)
  }

  predicate NetworkCompatible(a: Entity, b: Entity)
  {
    && !(a.kind.NetworkPolicy? && b.kind.NetworkPolicy?)
    && !(a.kind.NetworkSegment? && b.kind.NetworkSegment? && a.segment.Some? && b.segment.Some?
         && NaturalKey(a.segment.value) == NaturalKey(b.segment.value))
    && !(a.kind.NetworkProfile? && b.kind.NetworkProfile? && a.profile.Some? && b.profile.Some?
         && a.profile.value.segment == b.profile.value.segment)
  }

  ghost predicate NetworkOk(m: Manifest)
  {
    && (forall e :: e in m ==> NetworkEntityOk(m, e))
    && (forall i, j :: 0 <= i < j < |m| ==> NetworkCompatible(m[i], m[j]))
  }

  ghost predicate SubjectsOk(m: Manifest)
  {
    forall e :: e in m ==> IsSubject(e.kind) ==> BindingsOk(m, e.roles)
  }

  // What a refusal says about the manifest.
  ghost predicate Violates(m: Manifest, err: ManifestError)
  {
    match err
    case EmptyKey => exists e :: e in m && e.key == ""
    case DuplicateKey =>
      exists i, j :: 0 <= i < j < |m| && m[i].kind == m[j].kind && m[i].key == m[j].key
    case NoResourceType => exists e :: e in m && e.kind.Resource? && e.resourceType == ""
    case DanglingDependency =>
      exists e :: e in m && e.dependsOn.Some? && FindKey(m, e.dependsOn.value).None?
    case DependencyCycle => HasCycle(m)
    case NoSpec =>
      exists e :: e in m && ((e.kind.NetworkPolicy? && e.policyCap.None?)
                             || (e.kind.NetworkSegment? && e.segment.None?)
                             || (e.kind.NetworkProfile? && e.profile.None?))
    case SecondPolicy =>
      exists i, j :: 0 <= i < j < |m| && m[i].kind.NetworkPolicy? && m[j].kind.NetworkPolicy?
    case DuplicateNaturalKey =>
      exists i, j :: 0 <= i < j < |m| && m[i].kind.NetworkSegment? && m[j].kind.NetworkSegment?
                     && m[i].segment.Some? && m[j].segment.Some?
                     && NaturalKey(m[i].segment.value) == NaturalKey(m[j].segment.value)
    case DuplicateFilterId =>
      exists e :: e in m && e.kind.NetworkSegment? && e.segment.Some? && e.segment.value.filterIds.Some?
                  && !NoDuplicates(e.segment.value.filterIds.value)
    case DanglingSegment =>
      exists e :: e in m && e.kind.NetworkProfile? && e.profile.Some?
                  && FindKeyOfKind(m, e.profile.value.segment, NetworkSegment).None?
    case SecondProfile =>
      exists i, j :: 0 <= i < j < |m| && m[i].kind.NetworkProfile? && m[j].kind.NetworkProfile?
                     && m[i].profile.Some? && m[j].profile.Some?
                     && m[i].profile.value.segment == m[j].profile.value.segment
    case BadBinding => exists e :: e in m && IsSubject(e.kind) && !BindingsOk(m, e.roles)
  }

  lemma CoherentClauses(m: Manifest)
    ensures Coherent(m) <==>
            KeysOk(m) && DependenciesOk(m) && !HasCycle(m) && NetworkOk(m) && SubjectsOk(m)
  {
    assert forall a, b :: Compatible(a, b) <==>
             !(a.kind == b.kind && a.key == b.key) && NetworkCompatible(a, b);
  }

  method CheckKeys(m: Manifest) returns (err: Option<ManifestError>)
    ensures err.None? <==> KeysOk(m)
    ensures err.Some? ==> Violates(m, err.value)
  {
    var seen: set<(Kind, string)> := {};
    for n := 0 to |m|
      invariant seen == set j | 0 <= j < n :: (m[j].kind, m[j].key)
      invariant forall j :: 0 <= j < n ==> m[j].key != "" && (m[j].kind.Resource? ==> m[j].resourceType != "")
      invariant forall i, j :: 0 <= i < j < n ==> !(m[i].kind == m[j].kind && m[i].key == m[j].key)
    {
      assert m[n] in m;
      if m[n].key == "" { return Some(EmptyKey); }
      if (m[n].kind, m[n].key) in seen { return Some(DuplicateKey); }
      seen := seen + {(m[n].kind, m[n].key)};
      if m[n].kind.Resource? && m[n].resourceType == "" { return Some(NoResourceType); }
    }
    return None;
  }

  method CheckDependencies(m: Manifest) returns (err: Option<ManifestError>)
    ensures err.None? <==> DependenciesOk(m)
    ensures err.Some? ==> Violates(m, err.value)
  {
    for n := 0 to |m|
      invariant forall j :: 0 <= j < n ==> m[j].dependsOn.Some? ==> FindKey(m, m[j].dependsOn.value).Some?
    {
      assert m[n] in m;
      if m[n].dependsOn.Some? && FindKey(m, m[n].dependsOn.value).None? {
        return Some(DanglingDependency);
      }
    }
    return None;
  }

  // The step-counting check throws from this start.
  predicate Overruns(m: Manifest, start: Entity)
  {
    var last := Walk(m, start, |m|);
    last.Some? && last.value.dependsOn.Some?
  }

  // One walk of the step-counting check.
  method OverrunsFrom(m: Manifest, start: Entity) returns (overrun: bool)
    requires start in m
    ensures overrun <==> Overruns(m, start)
  {
    var at := Some(start);
    var steps := 0;
    while at.Some? && at.value.dependsOn.Some?
      invariant steps <= |m| && at == Walk(m, start, steps)
      decreases |m| - steps
    {
      if steps + 1 > |m| { return true; }
      steps := steps + 1;
      at := FindKey(m, at.value.dependsOn.value);
      assert at == Walk(m, start, steps);
    }
    if Walk(m, start, |m|).Some? && steps < |m| {
      WalkDefined(m, start, steps + 1, |m|);
    }
    return false;
  }

  // With every reference declared, some walk overruns exactly when there is a cycle.
  lemma OverrunIffCycle(m: Manifest)
    requires DependenciesOk(m)
    ensures (exists e :: e in m && Overruns(m, e)) <==> HasCycle(m)
  {
    if e :| e in m && Overruns(m, e) {
      LongWalkIsCycle(m, e);
    }
    if HasCycle(m) {
      var e, k :| e in m && 0 < k && Walk(m, e, k) == Some(e);
      CycleForever(m, e, k, |m|);
      CycleForever(m, e, k, |m| + 1);
      assert e in m && Overruns(m, e);
    }
  }

  method CheckCycles(m: Manifest) returns (err: Option<ManifestError>)
    requires DependenciesOk(m)
    ensures err.None? <==> !HasCycle(m)
    ensures err.Some? ==> Violates(m, err.value)
  {
    OverrunIffCycle(m);
    for n := 0 to |m|
      invariant forall j :: 0 <= j < n ==> !Overruns(m, m[j])
    {
      var overrun := OverrunsFrom(m, m[n]);
      if overrun { return Some(DependencyCycle); }
    }
    return None;
  }

  method HasDuplicate(names: seq<string>) returns (found: bool)
    ensures found <==> !NoDuplicates(names)
  {
    var seen: set<string> := {};
    for n := 0 to |names|
      invariant seen == set j | 0 <= j < n :: names[j]
      invariant forall i, j :: 0 <= i < j < n ==> names[i] != names[j]
    {
      if names[n] in seen { return true; }
      seen := seen + {names[n]};
    }
    return false;
  }

  // What the pass over the network kinds remembers about the first n entities.
  datatype NetworkSeen = NetworkSeen(segmentKeys: set<string>, profileSegments: set<string>, policy: bool)
  {
    ghost predicate Tracks(m: Manifest, n: nat)
      requires n <= |m|
    {
      && (policy <==> exists j :: 0 <= j < n && m[j].kind.NetworkPolicy?)
      && (forall k :: k in segmentKeys <==> exists j :: 0 <= j < n && SegmentKeyIs(m[j], k))
      && (forall k :: k in profileSegments <==> exists j :: 0 <= j < n && ProfileSegmentIs(m[j], k))
    }
  }

  predicate SegmentKeyIs(e: Entity, k: string)
  {
    e.kind.NetworkSegment? && e.segment.Some? && NaturalKey(e.segment.value) == k
  }

  predicate ProfileSegmentIs(e: Entity, k: string)
  {
    e.kind.NetworkProfile? && e.profile.Some? && e.profile.value.segment == k
  }

  method CheckPolicy(m: Manifest, n: nat, seen: NetworkSeen) returns (err: Option<ManifestError>)
    requires n < |m| && m[n].kind.NetworkPolicy? && seen.Tracks(m, n)
    ensures err.Some? ==> Violates(m, err.value) && !NetworkOk(m)
    ensures err.None? ==> m[n].policyCap.Some? && !seen.policy
  {
    assert m[n] in m;
    if m[n].policyCap.None? {
      assert !NetworkEntityOk(m, m[n]);
      return Some(NoSpec);
    }
    if seen.policy {
      ghost var j :| 0 <= j < n && m[j].kind.NetworkPolicy?;
      assert !NetworkCompatible(m[j], m[n]);
      return Some(SecondPolicy);
    }
    return None;
  }

  method CheckSegment(m: Manifest, n: nat, seen: NetworkSeen) returns (err: Option<ManifestError>)
    requires n < |m| && m[n].kind.NetworkSegment? && seen.Tracks(m, n)
    ensures err.Some? ==> Violates(m, err.value) && !NetworkOk(m)
    ensures err.None? ==> NetworkEntityOk(m, m[n]) && NaturalKey(m[n].segment.value) !in seen.segmentKeys
  {
    var e := m[n];
    assert e in m;
    if e.segment.None? {
      assert !NetworkEntityOk(m, e);
      return Some(NoSpec);
    }
    if NaturalKey(e.segment.value) in seen.segmentKeys {
      ghost var j :| 0 <= j < n && SegmentKeyIs(m[j], NaturalKey(e.segment.value));
      assert !NetworkCompatible(m[j], m[n]);
      return Some(DuplicateNaturalKey);
    }
    if e.segment.value.filterIds.Some? {
      var repeated := HasDuplicate(e.segment.value.filterIds.value);
      if repeated {
        assert !NetworkEntityOk(m, e);
        return Some(DuplicateFilterId);
      }
    }
    return None;
  }

  method CheckProfile(m: Manifest, n: nat, seen: NetworkSeen) returns (err: Option<ManifestError>)
    requires n < |m| && m[n].kind.NetworkProfile? && seen.Tracks(m, n)
    ensures err.Some? ==> Violates(m, err.value) && !NetworkOk(m)
    ensures err.None? ==> NetworkEntityOk(m, m[n]) && m[n].profile.value.segment !in seen.profileSegments
  {
    var e := m[n];
    assert e in m;
    if e.profile.None? {
      assert !NetworkEntityOk(m, e);
      return Some(NoSpec);
    }
    if FindKeyOfKind(m, e.profile.value.segment, NetworkSegment).None? {
      assert !NetworkEntityOk(m, e);
      return Some(DanglingSegment);
    }
    if e.profile.value.segment in seen.profileSegments {
      ghost var j :| 0 <= j < n && ProfileSegmentIs(m[j], e.profile.value.segment);
      assert !NetworkCompatible(m[j], m[n]);
      return Some(SecondProfile);
    }
    return None;
  }

  method CheckNetworkEntity(m: Manifest, n: nat, seen: NetworkSeen)
    returns (err: Option<ManifestError>, seen': NetworkSeen)
    requires n < |m| && seen.Tracks(m, n)
    ensures err.Some? ==> Violates(m, err.value) && !NetworkOk(m)
    ensures err.None? ==> NetworkEntityOk(m, m[n]) && seen'.Tracks(m, n + 1)
    ensures err.None? ==> forall j :: 0 <= j < n ==> NetworkCompatible(m[j], m[n])
  {
    var e := m[n];
    err, seen' := None, seen;
    match e.kind {
      case NetworkPolicy =>
        err := CheckPolicy(m, n, seen);
        seen' := seen.(policy := true);
      case NetworkSegment =>
        err := CheckSegment(m, n, seen);
        if err.None? {
          seen' := seen.(segmentKeys := seen.segmentKeys + {NaturalKey(e.segment.value)});
        }
      case NetworkProfile =>
        err := CheckProfile(m, n, seen);
        if err.None? {
          seen' := seen.(profileSegments := seen.profileSegments + {e.profile.value.segment});
        }
      case _ =>
    }
    if err.Some? { return; }
    assert forall j :: 0 <= j < n ==> NetworkCompatible(m[j], e) by { SeenCompatible(m, n, seen); }
    TracksNext(m, n, seen, seen');
  }

  lemma SeenCompatible(m: Manifest, n: nat, seen: NetworkSeen)
    requires n < |m| && seen.Tracks(m, n)
    requires m[n].kind.NetworkPolicy? ==> !seen.policy
    requires m[n].kind.NetworkSegment? ==> m[n].segment.Some? && NaturalKey(m[n].segment.value) !in seen.segmentKeys
    requires m[n].kind.NetworkProfile? ==> m[n].profile.Some? && m[n].profile.value.segment !in seen.profileSegments
    ensures forall j :: 0 <= j < n ==> NetworkCompatible(m[j], m[n])
  {
    forall j | 0 <= j < n ensures NetworkCompatible(m[j], m[n]) {
      if m[n].kind.NetworkSegment? {
        assert !SegmentKeyIs(m[j], NaturalKey(m[n].segment.value));
      }
      if m[n].kind.NetworkProfile? {
        assert !ProfileSegmentIs(m[j], m[n].profile.value.segment);
      }
    }
  }

  lemma TracksNext(m: Manifest, n: nat, seen: NetworkSeen, seen': NetworkSeen)
    requires n < |m| && seen.Tracks(m, n)
    requires seen'.policy == (seen.policy || m[n].kind.NetworkPolicy?)
    requires forall k :: k in seen'.segmentKeys <==> k in seen.segmentKeys || SegmentKeyIs(m[n], k)
    requires forall k :: k in seen'.profileSegments <==> k in seen.profileSegments || ProfileSegmentIs(m[n], k)
    ensures seen'.Tracks(m, n + 1)
  {
    forall k ensures k in seen'.segmentKeys <==> exists j :: 0 <= j < n + 1 && SegmentKeyIs(m[j], k) {
      if k in seen'.segmentKeys && k in seen.segmentKeys {
        var j :| 0 <= j < n && SegmentKeyIs(m[j], k);
      }
    }
    forall k ensures k in seen'.profileSegments <==> exists j :: 0 <= j < n + 1 && ProfileSegmentIs(m[j], k) {
      if k in seen'.profileSegments && k in seen.profileSegments {
        var j :| 0 <= j < n && ProfileSegmentIs(m[j], k);
      }
    }
  }

  method CheckNetwork(m: Manifest) returns (err: Option<ManifestError>)
    ensures err.None? <==> NetworkOk(m)
    ensures err.Some? ==> Violates(m, err.value)
  {
    var seen := NetworkSeen({}, {}, false);
    for n := 0 to |m|
      invariant seen.Tracks(m, n)
      invariant forall j :: 0 <= j < n ==> NetworkEntityOk(m, m[j])
      invariant forall i, j :: 0 <= i < j < n ==> NetworkCompatible(m[i], m[j])
    {
      err, seen := CheckNetworkEntity(m, n, seen);
      if err.Some? { return; }
    }
    return None;
  }

  method CheckBindings(m: Manifest, bs: seq<RoleBinding>) returns (ok: bool)
    ensures ok <==> BindingsOk(m, bs)
  {
    var seen: set<string> := {};
    for n := 0 to |bs|
      invariant seen == set j | 0 <= j < n :: bs[j].role
      invariant forall j :: 0 <= j < n ==> BindingOk(m, bs[j])
      invariant forall i, j :: 0 <= i < j < n ==> bs[i].role != bs[j].role
    {
      var b := bs[n];
      var role := FindKeyOfKind(m, b.role, Role);
      if role.None? { return false; }
      if b.role in seen { return false; }
      seen := seen + {b.role};
      if b.resource.Some? && FindKeyOfKind(m, b.resource.value, Resource).None? { return false; }
      if b.inherit == Some(false) && role.value.isGlobal { return false; }
      if b.resource.None? && b.inherit == Some(false) { return false; }
    }
    return true;
  }

  // validate accepts exactly the coherent manifests, and a refusal names a violation there is.
  method Validate(m: Manifest) returns (err: Option<ManifestError>)
    ensures err.None? <==> Coherent(m)
    ensures err.Some? ==> Violates(m, err.value)
  {
    CoherentClauses(m);
    err := CheckKeys(m);
    if err.Some? { return; }
    err := CheckDependencies(m);
    if err.Some? { return; }
    err := CheckCycles(m);
    if err.Some? { return; }
    err := CheckNetwork(m);
    if err.Some? { return; }
    for n := 0 to |m|
      invariant forall j :: 0 <= j < n ==> IsSubject(m[j].kind) ==> BindingsOk(m, m[j].roles)
    {
      assert m[n] in m;
      if IsSubject(m[n].kind) {
        var ok := CheckBindings(m, m[n].roles);
        if !ok { return Some(BadBinding); }
      }
    }
    return None;
  }
}
