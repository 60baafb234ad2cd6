// The manifest value types and key lookups.
module ManifestTypes {
  import opened Prelude
  import opened Json

  // The order of the constructors is the order an apply runs the kinds in.
  datatype Kind =
    | Resource
    | Permission
    | Role
    | Group
    | ServiceAccount
    | NetworkPolicy
    | NetworkSegment
    | NetworkProfile

  function Rank(k: Kind): nat
  {
    match k
    case Resource => 0
    case Permission => 1
    case Role => 2
    case Group => 3
    case ServiceAccount => 4
    case NetworkPolicy => 5
    case NetworkSegment => 6
    case NetworkProfile => 7
  }

  predicate IsNetwork(k: Kind)
  {
    k.NetworkPolicy? || k.NetworkSegment? || k.NetworkProfile?
  }

  // Kinds whose specs carry role bindings.
  predicate IsSubject(k: Kind) { k.Group? || k.ServiceAccount? }

  datatype RoleBinding = RoleBinding(role: string, resource: Option<string>, inherit: Option<bool>)
  {
    predicate Narrowed() { inherit == Some(false) }
  }

  // Outer None: the manifest says nothing. Some(None): the manifest states "none".
  type Nullable<T> = Option<Option<T>>

  datatype TerminationAction = TerminateDefault | RadiusRequest | TerminationUnknown
  datatype ServiceType = FramedUser | ServiceTypeUnknown

  datatype SegmentSpec = SegmentSpec(
    site: string,
    kind: string,
    name: string,
    vlan: int,
    rank: Nullable<int>,
    filterIds: Option<seq<string>>,
    enabled: Option<bool>)

  datatype ProfileSpec = ProfileSpec(
    segment: string,
    sessionTimeout: int,
    termination: Option<TerminationAction>,
    idle: Nullable<int>,
    filterId: Nullable<string>,
    serviceType: Nullable<ServiceType>)

  datatype Entity = Entity(
    kind: Kind,
    key: string,
    name: string,
    description: string,
    resourceType: string,
    action: string,
    isGlobal: bool,
    dependsOn: Option<string>,
    metadata: Option<JsonText>,
    roles: seq<RoleBinding>,
    segment: Option<SegmentSpec>,
    profile: Option<ProfileSpec>,
    policyCap: Option<int>)

  type Manifest = seq<Entity>

  // The name a declaration is matched against on the server.
  function MatchName(e: Entity): string
  {
    if e.kind.Permission? then e.action else e.name
  }

  // The first entity with the key, whatever its kind.
  function FindKey(m: Manifest, key: string): (r: Option<Entity>)
    ensures r.Some? ==> r.value in m && r.value.key == key
    ensures r.None? ==> forall e :: e in m ==> e.key != key
  {
    if m == [] then None
    else if m[0].key == key then Some(m[0])
    else FindKey(m[1..], key)
  }

  // The first entity with the key and the kind.
  function FindKeyOfKind(m: Manifest, key: string, kind: Kind): (r: Option<Entity>)
    ensures r.Some? ==> r.value in m && r.value.key == key && r.value.kind == kind
    ensures r.None? ==> forall e :: e in m ==> !(e.key == key && e.kind == kind)
  {
    if m == [] then None
    else if m[0].key == key && m[0].kind == kind then Some(m[0])
    else FindKeyOfKind(m[1..], key, kind)
  }

  // A control character no site, kind or name can hold separates the three parts.
  function NaturalKey(s: SegmentSpec): string
  {
    s.site + [31 as char] + s.kind + [31 as char] + s.name
  }

  // ---- what validate() promises ----

  predicate BindingOk(m: Manifest, b: RoleBinding)
  {
    var role := FindKeyOfKind(m, b.role, Role);
    && role.Some?
    && (b.resource.Some? ==> FindKeyOfKind(m, b.resource.value, Resource).Some?)
    && (b.Narrowed() ==> !role.value.isGlobal && b.resource.Some?)
  }

  ghost predicate BindingsOk(m: Manifest, bs: seq<RoleBinding>)
  {
    && (forall i :: 0 <= i < |bs| ==> BindingOk(m, bs[i]))
    && (forall i, j :: 0 <= i < j < |bs| ==> bs[i].role != bs[j].role)
  }

  // What one entity must satisfy, given the manifest it refers into.
  ghost predicate EntityOk(m: Manifest, e: Entity)
  {
    && e.key != ""
    && (e.kind.Resource? ==> e.resourceType != "")
    && (e.dependsOn.Some? ==> FindKey(m, e.dependsOn.value).Some?)
    && (e.kind.NetworkPolicy? ==> e.policyCap.Some?)
    && (e.kind.NetworkSegment? ==>
          && e.segment.Some?
          && (e.segment.value.filterIds.Some? ==> NoDuplicates(e.segment.value.filterIds.value)))
    && (e.kind.NetworkProfile? ==>
          && e.profile.Some?
          && FindKeyOfKind(m, e.profile.value.segment, NetworkSegment).Some?)
    && (IsSubject(e.kind) ==> BindingsOk(m, e.roles))
  }

  // What no two entities of one manifest may share.
  predicate Compatible(a: Entity, b: Entity)
  {
    && !(a.kind == b.kind && a.key == b.key)
    && !(a.kind.NetworkPolicy? && b.kind.NetworkPolicy?)
    && !(a.kind.NetworkSegment? && b.kind.NetworkSegment? && a.segment.Some? && b.segment.Some?
         && NaturalKey(a.segment.value) == NaturalKey(b.segment.value))
    && !(a.kind.NetworkProfile? && b.kind.NetworkProfile? && a.profile.Some? && b.profile.Some?
         && a.profile.value.segment == b.profile.value.segment)
  }

  // The entity a declaration depends on, by the kind-blind lookup.
  function Parent(m: Manifest, e: Entity): (r: Option<Entity>)
    ensures r.Some? ==> r.value in m
  {
    if e.dependsOn.Some? then FindKey(m, e.dependsOn.value) else None
  }

  // Where k dependency steps from e lead.
  function Walk(m: Manifest, e: Entity, k: nat): (r: Option<Entity>)
    ensures k > 0 && r.Some? ==> r.value in m
    decreases k
  {
    if k == 0 then Some(e)
    else match Walk(m, e, k - 1)
      case None => None
      case Some(at) => Parent(m, at)
  }

  ghost predicate HasCycle(m: Manifest)
  {
    exists e, k :: e in m && 0 < k && Walk(m, e, k) == Some(e)
  }

  ghost predicate Coherent(m: Manifest)
  {
    && (forall e :: e in m ==> EntityOk(m, e))
    && (forall i, j :: 0 <= i < j < |m| ==> Compatible(m[i], m[j]))
    && !HasCycle(m)
  }

  // Different entities of a coherent manifest are compatible, wherever they stand.
  lemma CoherentPair(m: Manifest, a: Entity, b: Entity)
    requires Coherent(m) && a in m && b in m && a != b
    ensures Compatible(a, b)
  {
    var i :| 0 <= i < |m| && m[i] == a;
    var j :| 0 <= j < |m| && m[j] == b;
    assert Compatible(a, b) <==> Compatible(b, a);
    if i < j {
      assert Compatible(m[i], m[j]);
    } else {
      assert Compatible(m[j], m[i]);
    }
  }

  lemma CoherentNoDuplicates(m: Manifest)
    requires Coherent(m)
    ensures NoDuplicates(m)
  {
    forall i, j | 0 <= i < j < |m| ensures m[i] != m[j] {
      assert Compatible(m[i], m[j]);
    }
  }

  // A key of a kind names one entity.
  lemma FindKeyOfKindUnique(m: Manifest, e: Entity)
    requires Coherent(m) && e in m
    ensures FindKeyOfKind(m, e.key, e.kind) == Some(e)
  {
    var found := FindKeyOfKind(m, e.key, e.kind);
    assert found.Some?;
    if found.value != e {
      CoherentPair(m, found.value, e);
    }
  }
}
